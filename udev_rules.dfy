// The udev rules that pass partition events of an added disk on to the
// container (pkg/udevd/udevd_controller.go, pkg/udevd/udevd.go): the rule
// line the tools write, the rule file `saveRules` produces and the line
// parser of `loadRules`.  Opening, writing and syncing the file are inputs.
module UdevRules {
  import opened Wrappers
  import opened Strs
  import opened Paths
  import opened Seqs

  /** The helper udev runs for a matching partition event. */
  const Program: string := "/lib/udev/isulad-tools_wrapper"

  /** One rule: the host disk, the device name inside the container and the
    * container id. */
  datatype Rule = Rule(name: string, ctrDevName: string, container: string)

  /** `TrimContainerID`: the short container id; Go panics on an id shorter
    * than eight characters. */
  function TrimContainerID(r: Rule): (id: string)
    requires |r.container| >= 8
    ensures |id| == 8 && HasPrefix(r.container, id)
  {
    r.container[..8]
  }

  /** The five comma-separated tags of a rule line. */
  const ActionTag: string := "ACTION==\"add|remove\""
  const DevTypeTag: string := " ENV{DEVTYPE}==\"partition\""
  const SubsystemTag: string := " SUBSYSTEM==\"block\""

  function KernelTag(base: string): string
  {
    "KERNEL==\"" + base + "*\""
  }

  /** The udev variables the helper is given: the action and the kernel
    * name of the device. */
  const ActionVar: string := "$env{ACTION}"
  const NameVar: string := "$name"

  /** The helper's command: event, short id, partition, container device
    * and disk base name. */
  function RunCommand(id: string, ctrDevName: string, base: string): string
  {
    Program + " " + ActionVar + " " + id + " " + NameVar + " " + ctrDevName + " " + base
  }

  function RunTag(cmd: string): string
  {
    " RUN{program}+=\"" + cmd + "\""
  }

  /** `ToUdevRuleString`: partition events of the disk's base name run the
    * helper with the short id, the container device and the base name. */
  function ToUdevRuleString(r: Rule): string
    requires |r.container| >= 8
  {
    var b := Base(r.name);
    KernelTag(b) + "," + ActionTag + "," + DevTypeTag + "," + SubsystemTag + "," +
    RunTag(RunCommand(TrimContainerID(r), r.ctrDevName, b))
  }

  /** Text written one line at a time, each followed by "\n". */
  function LinesText(lines: seq<string>): string
  {
    if |lines| == 0 then "" else lines[0] + "\n" + LinesText(lines[1..])
  }

  /** The rule lines, in order. */
  function RuleLines(rules: seq<Rule>): (r: seq<string>)
    requires forall i :: 0 <= i < |rules| ==> |rules[i].container| >= 8
    ensures |r| == |rules| && forall i :: 0 <= i < |rules| ==> r[i] == ToUdevRuleString(rules[i])
  {
    seq(|rules|, i requires 0 <= i < |rules| => ToUdevRuleString(rules[i]))
  }

  /** The lines the rule file starts with: two "##" comments and a blank
    * line. */
  const Header: seq<string> := [HeaderTitle, HeaderWarning, ""]
  const HeaderTitle: string := TitleHead + TitleMiddle + TitleTail
  const TitleHead: string := "## This File is "
  const TitleMiddle: string := "auto-generated "
  const TitleTail: string := "by isulad-tools."
  const HeaderWarning: string := "## DO   NOT  EDIT   IT"

  /** The file `saveRules` writes: the header, then one line per rule. */
  function SaveRules(rules: seq<Rule>): string
    requires forall i :: 0 <= i < |rules| ==> |rules[i].container| >= 8
  {
    LinesText(Header + RuleLines(rules))
  }

  // ---------------------------------------------------------------------
  // Reading rules back

  /** What the tags of one line gave so far. */
  datatype TagFields = TagFields(name: string, containerID: string, ctrDevName: string)

  const NoFields := TagFields("", "", "")

  /** The rule name in a KERNEL value: the value without its last character
    * (the "*"); an empty value gives no name. */
  function KernelName(sub: string): (name: string)
    ensures sub != "" ==> sub == name + [sub[|sub| - 1]]
    ensures sub == "" ==> name == ""
  {
    if sub == "" then "" else sub[..|sub| - 1]
  }

  /** The KERNEL step as written: `sub[:len(sub)-1]`, which panics (here an
    * error) on an empty value. */
  function KernelNameAsWritten(sub: string): (r: Result<string>)
    ensures r.Err? <==> sub == ""
  {
    if sub == "" then Err("slice bounds out of range [:-1]") else Ok(sub[..|sub| - 1])
  }

  /** The text of a tag without its surrounding spaces. */
  function TrimTag(tag: string): string
  {
    TrimRight(TrimLeft(tag, {' '}), {' '})
  }

  /** What a RUN tag gives: the third and fifth words of the quoted command,
    * when it has at least six. */
  function RunStep(f: TagFields, t: string): (r: TagFields)
    ensures r.name == f.name
    ensures r != f ==> ' ' !in r.containerID && ' ' !in r.ctrDevName
  {
    var ar := Split(t, '"');
    if |ar| >= 2 then
      var cmd := Split(ar[1], ' ');
      if |cmd| >= 6 then f.(containerID := cmd[2], ctrDevName := cmd[4]) else f
    else f
  }

  /** One tag of a rule line. */
  function TagStep(f: TagFields, tag: string): (r: TagFields)
    ensures !HasPrefix(TrimTag(tag), "KERNEL") ==> r.name == f.name
    ensures !HasPrefix(TrimTag(tag), "RUN") ==> r.containerID == f.containerID && r.ctrDevName == f.ctrDevName
  {
    var t := TrimTag(tag);
    var f1 :=
      if HasPrefix(t, "KERNEL") then
        var ar := Split(t, '"');
        if |ar| >= 2 then f.(name := KernelName(ar[1])) else f
      else f;
    if HasPrefix(t, "RUN") then RunStep(f1, t) else f1
  }

  /** One tag as written: an empty KERNEL value panics. */
  function TagStepAsWritten(f: TagFields, tag: string): (r: Result<TagFields>)
  {
    var t := TrimTag(tag);
    var f1: Result<TagFields> :=
      if HasPrefix(t, "KERNEL") then
        var ar := Split(t, '"');
        if |ar| >= 2 then
          match KernelNameAsWritten(ar[1])
          case Err(e) => Err(e)
          case Ok(n) => Ok(f.(name := n))
        else Ok(f)
      else Ok(f);
    match f1
    case Err(e) => Err(e)
    case Ok(g) => if HasPrefix(t, "RUN") then Ok(RunStep(g, t)) else Ok(g)
  }

  /** Wherever the written step does not panic, the step of the model gives
    * the same fields. */
  lemma TagStepAgrees(f: TagFields, tag: string)
    ensures TagStepAsWritten(f, tag).Ok? ==> TagStepAsWritten(f, tag) == Ok(TagStep(f, tag))
    ensures TagStepAsWritten(f, tag).Err? ==> HasPrefix(TrimTag(tag), "KERNEL") && Split(TrimTag(tag), '"')[1] == ""
  {
    var t := TrimTag(tag);
    var g :=
      if HasPrefix(t, "KERNEL") && |Split(t, '"')| >= 2 then f.(name := KernelName(Split(t, '"')[1])) else f;
    assert TagStep(f, tag) == if HasPrefix(t, "RUN") then RunStep(g, t) else g;
    if HasPrefix(t, "KERNEL") {
      var ar := Split(t, '"');
      if |ar| >= 2 && ar[1] != "" {
        assert KernelNameAsWritten(ar[1]) == Ok(KernelName(ar[1]));
      }
    }
  }

  /** A line holding the tag KERNEL=="" makes the written loader panic; the
    * model drops the line, as it drops every other incomplete line. */
  lemma EmptyKernelPanics(line: string)
    requires line == "KERNEL==\"\""
    ensures TagStepAsWritten(NoFields, line).Err?
    ensures ParseRuleLine(line).None?
  {
    EmptyKernelTag(line);
    assert line[0] == 'K' && ',' !in line;
    assert !HasPrefix(TrimTag(line), "RUN");
    OneTagLine(line);
  }

  /** A line that is a single tag, does not start with a space and is not
    * a RUN tag gives no rule: nothing sets the container id. */
  lemma OneTagLine(line: string)
    requires (|line| == 0 || line[0] != ' ') && ',' !in line
    requires !HasPrefix(TrimTag(line), "RUN")
    ensures ParseRuleLine(line).None?
  {
    if |line| > 0 {
      TrimLeftStop(line, {' '});
    }
    SplitNoSep(line, ',');
    ScanSnoc([], line);
    EmptyPlusOne(line);
  }

  lemma EmptyKernelTag(line: string)
    requires line == "KERNEL==\"\""
    ensures TrimTag(line) == line
    ensures HasPrefix(line, "KERNEL") && Split(line, '"')[1] == ""
    ensures TagStepAsWritten(NoFields, line).Err?
  {
    assert line == "KERNEL==" + ['"'] + "" + ['"'] + "";
    SplitThree("KERNEL==", "", "", '"');
    TrimTagPlain(line);
    assert line[..6] == "KERNEL";
  }

  /** The tags of a line, read left to right. */
  function ScanTags(tags: seq<string>): (r: TagFields)
    ensures r.containerID == "" || ' ' !in r.containerID
    ensures r.ctrDevName == "" || ' ' !in r.ctrDevName
    decreases |tags|
  {
    if |tags| == 0 then NoFields else TagStep(ScanTags(tags[..|tags| - 1]), tags[|tags| - 1])
  }

  /** One line of the rule file: comments are skipped, and a line lacking a
    * name, a container id or a container device gives nothing. */
  function ParseRuleLine(line: string): (r: Option<Rule>)
    ensures HasPrefix(TrimLeft(line, {' '}), "#") ==> r.None?
    ensures r.Some? ==> r.value.container != "" && ' ' !in r.value.container
    ensures r.Some? ==> r.value.ctrDevName != "" && ' ' !in r.value.ctrDevName
  {
    var text := TrimLeft(line, {' '});
    if HasPrefix(text, "#") then None
    else
      var f := ScanTags(Split(text, ','));
      if f.name == "" || f.containerID == "" || f.ctrDevName == "" then None
      else Some(Rule(JoinPath(["/dev", f.name]), f.ctrDevName, f.containerID))
  }

  /** The line parser, as a value. */
  function LineParser(): string -> Option<Rule>
  {
    line => ParseRuleLine(line)
  }

  /** The rules of the lines, in order. */
  function ParseRules(lines: seq<string>): seq<Rule>
  {
    FilterMap(lines, LineParser())
  }

  /** What opening the rule file gives. */
  datatype RuleFile = NoRuleFile | OpenFailed(err: string) | RuleText(text: string)

  /** `loadRules`: a missing file gives no rules, an open error is returned,
    * otherwise each scanned line is read in turn. */
  method LoadRules(file: RuleFile) returns (r: Result<seq<Rule>>)
    ensures file.NoRuleFile? ==> r == Ok([])
    ensures file.OpenFailed? ==> r == Err(file.err)
    ensures file.RuleText? ==> r == Ok(ParseRules(ScanLines(file.text)))
  {
    match file
    case NoRuleFile => return Ok([]);
    case OpenFailed(e) => return Err(e);
    case RuleText(content) =>
      var lines := ScanLines(content);
      var rules: seq<Rule> := [];
      var i := 0;
      assert lines[0..] == lines;
      while i < |lines|
        invariant 0 <= i <= |lines|
        invariant ParseRules(lines) == rules + ParseRules(lines[i..])
      {
        var rule := ReadRuleLine(lines[i]);
        LoadStep(lines, i, rules, rule);
        if rule.Some? {
          rules := rules + [rule.value];
        }
        i := i + 1;
      }
      AppendNil(rules);
      return Ok(rules);
  }

  /** One line of the loop of `loadRules`. */
  lemma LoadStep(lines: seq<string>, i: nat, rules: seq<Rule>, rule: Option<Rule>)
    requires i < |lines| && rule == ParseRuleLine(lines[i])
    ensures rules + ParseRules(lines[i..]) ==
            (if rule.Some? then rules + [rule.value] else rules) + ParseRules(lines[i + 1..])
  {
    assert lines[i..][1..] == lines[i + 1..];
    FilterMapFront(lines[i..], LineParser(), rules);
    if rule.None? {
      AppendNil(rules);
    }
  }

  /** The body of the line loop of `loadRules`. */
  method ReadRuleLine(line: string) returns (rule: Option<Rule>)
    ensures rule == ParseRuleLine(line)
  {
    var text := TrimLeft(line, {' '});
    if HasPrefix(text, "#") {
      return None;
    }
    var name, containerID, ctrDevName := ReadTags(Split(text, ','));
    if name != "" && containerID != "" && ctrDevName != "" {
      return Some(Rule(JoinPath(["/dev", name]), ctrDevName, containerID));
    }
    return None;
  }

  /** The tag loop of `loadRules`: the fields of a line, read left to right. */
  method ReadTags(items: seq<string>) returns (name: string, containerID: string, ctrDevName: string)
    ensures TagFields(name, containerID, ctrDevName) == ScanTags(items)
  {
    name, containerID, ctrDevName := "", "", "";
    var j := 0;
    while j < |items|
      invariant 0 <= j <= |items|
      invariant TagFields(name, containerID, ctrDevName) == ScanTags(items[..j])
    {
      assert items[..j + 1][..j] == items[..j];
      var tag := TrimTag(items[j]);
      if HasPrefix(tag, "KERNEL") {
        var ar := Split(tag, '"');
        if |ar| >= 2 {
          name := KernelName(ar[1]);
        }
      }
      if HasPrefix(tag, "RUN") {
        var ar := Split(tag, '"');
        if |ar| >= 2 {
          var cmdArray := Split(ar[1], ' ');
          if |cmdArray| >= 6 {
            containerID := cmdArray[2];
            ctrDevName := cmdArray[4];
          }
        }
      }
      j := j + 1;
    }
    assert items[..j] == items;
  }

  // ---------------------------------------------------------------------
  // The round trip

  /** Text that never splits a tag, a command word or a line. */
  predicate Word(s: string)
  {
    ',' !in s && ' ' !in s && '"' !in s && '\n' !in s
  }

  /** A rule that survives being written and read back: an id of at least
    * eight characters, and a base name and container device that are single
    * words. */
  predicate Storable(r: Rule)
  {
    |r.container| >= 8 && PlainName(Base(r.name)) && Word(Base(r.name)) &&
    r.ctrDevName != "" && Word(r.ctrDevName) && Word(r.container[..8])
  }

  /** The rule as it is read back: the name becomes "/dev/" and its base
    * name, the id its first eight characters. */
  function Normalised(r: Rule): Rule
    requires |r.container| >= 8
  {
    Rule("/dev/" + Base(r.name), r.ctrDevName, TrimContainerID(r))
  }

  /** The rules of the file `saveRules` writes are the saved rules,
    * normalised, in order. */
  lemma SaveLoadRoundTrip(rules: seq<Rule>)
    requires forall i :: 0 <= i < |rules| ==> Storable(rules[i])
    ensures forall i :: 0 <= i < |rules| ==> |rules[i].container| >= 8
    ensures var back := ParseRules(ScanLines(SaveRules(rules)));
            |back| == |rules| && forall i :: 0 <= i < |rules| ==> back[i] == Normalised(rules[i])
  {
    RuleLinesParse(rules);
    var body := RuleLines(rules);
    SavedLinesScan(rules);
    assert ScanLines(SaveRules(rules)) == Header + body;
    HeaderSkipped(body);
  }

  /** The header in front of the rule lines changes nothing. */
  lemma HeaderSkipped(body: seq<string>)
    ensures ParseRules(Header + body) == ParseRules(body)
  {
    HeaderGivesNoRule();
    SkipNoRuleLines(Header, body);
  }

  /** Lines that give no rule in front of others change nothing. */
  lemma SkipNoRuleLines(head: seq<string>, body: seq<string>)
    requires ParseRules(head) == []
    ensures ParseRules(head + body) == ParseRules(body)
  {
    FilterMapAppend(head, body, LineParser());
  }

  /** The header gives no rule. */
  lemma HeaderGivesNoRule()
    ensures ParseRules(Header) == []
  {
    TitleLine();
    WarningLine();
    BlankLineSkipped();
    ThreeLinesNoRule(HeaderTitle, HeaderWarning, "");
  }

  lemma ThreeLinesNoRule(a: string, b: string, c: string)
    requires ParseRuleLine(a).None? && ParseRuleLine(b).None? && ParseRuleLine(c).None?
    ensures ParseRules([a, b, c]) == []
  {
    var p := LineParser();
    assert p(a).None? && p(b).None? && p(c).None?;
    FilterMapNoneThree(a, b, c, p);
  }

  /** Scanning the saved file gives the header and the rule lines. */
  lemma SavedLinesScan(rules: seq<Rule>)
    requires forall i :: 0 <= i < |rules| ==> Storable(rules[i])
    ensures forall i :: 0 <= i < |rules| ==> |rules[i].container| >= 8
    ensures ScanLines(SaveRules(rules)) == Header + RuleLines(rules)
  {
    assert forall i :: 0 <= i < |rules| ==> |rules[i].container| >= 8;
    var body := RuleLines(rules);
    forall i | 0 <= i < |body|
      ensures '\n' !in body[i] && body[i] != "" && body[i][|body[i]| - 1] != '\r'
    {
      RuleLineShape(rules[i]);
    }
    HeaderLines();
    var all := Header + body;
    forall i | 0 <= i < |all|
      ensures '\n' !in all[i] && (all[i] == "" || all[i][|all[i]| - 1] != '\r')
    {
      if i >= |Header| {
        assert all[i] == body[i - |Header|];
      }
    }
    ScanLinesOfLines(all);
  }

  /** The header lines hold no line break, do not end in a carriage return
    * and give no rule. */
  lemma HeaderLines()
    ensures |Header| == 3
    ensures forall i :: 0 <= i < |Header| ==> '\n' !in Header[i] && (Header[i] == "" || Header[i][|Header[i]| - 1] != '\r')
    ensures forall i :: 0 <= i < |Header| ==> ParseRuleLine(Header[i]).None?
  {
    forall i | 0 <= i < |Header|
      ensures '\n' !in Header[i] && (Header[i] == "" || Header[i][|Header[i]| - 1] != '\r')
      ensures ParseRuleLine(Header[i]).None?
    {
      if i == 0 {
        TitleLine();
      } else if i == 1 {
        WarningLine();
      } else {
        BlankLineSkipped();
      }
    }
  }

  lemma TitleLine()
    ensures '\n' !in HeaderTitle && HeaderTitle[|HeaderTitle| - 1] != '\r'
    ensures ParseRuleLine(HeaderTitle).None?
  {
    assert '\n' !in TitleHead && TitleHead[0] == '#';
    assert '\n' !in TitleMiddle;
    assert '\n' !in TitleTail && TitleTail[|TitleTail| - 1] == '.';
    CommentLineSkipped(HeaderTitle);
  }

  lemma WarningLine()
    ensures '\n' !in HeaderWarning && HeaderWarning[|HeaderWarning| - 1] != '\r'
    ensures ParseRuleLine(HeaderWarning).None?
  {
    CommentLineSkipped(HeaderWarning);
  }

  /** The tags `ToUdevRuleString` joins. */
  function RuleTags(r: Rule): seq<string>
    requires |r.container| >= 8
  {
    var b := Base(r.name);
    [KernelTag(b), ActionTag, DevTypeTag, SubsystemTag, RunTag(RunCommand(TrimContainerID(r), r.ctrDevName, b))]
  }

  /** A storable rule's line is its tags joined by commas; no tag holds a
    * comma or a line break. */
  lemma RuleTagsJoin(r: Rule)
    requires Storable(r)
    ensures ToUdevRuleString(r) == Join(RuleTags(r), ',')
    ensures forall i :: 0 <= i < 5 ==> ',' !in RuleTags(r)[i] && '\n' !in RuleTags(r)[i]
  {
    RuleLineIsJoin(r);
    RuleTagsPlain(r);
  }

  lemma RuleLineIsJoin(r: Rule)
    requires Storable(r)
    ensures ToUdevRuleString(r) == Join(RuleTags(r), ',')
  {
    var t := RuleTags(r);
    JoinFive(t[0], t[1], t[2], t[3], t[4], ',');
  }

  lemma RuleTagsPlain(r: Rule)
    requires Storable(r)
    ensures forall i :: 0 <= i < 5 ==> ',' !in RuleTags(r)[i] && '\n' !in RuleTags(r)[i]
  {
    var t := RuleTags(r);
    var b := Base(r.name);
    forall i | 0 <= i < 5
      ensures ',' !in t[i] && '\n' !in t[i]
    {
      if i == 0 {
        KernelTagPlain(b);
      } else if i == 1 {
        ActionTagPlain();
      } else if i == 2 {
        DevTypeTagPlain();
      } else if i == 3 {
        SubsystemTagPlain();
      } else {
        RunTagPlain(TrimContainerID(r), r.ctrDevName, b);
      }
    }
  }

  lemma KernelTagPlain(b: string)
    requires Word(b)
    ensures ',' !in KernelTag(b) && '\n' !in KernelTag(b)
  {
  }

  lemma RunTagPlain(id: string, d: string, b: string)
    requires Word(id) && Word(d) && Word(b)
    ensures ',' !in RunTag(RunCommand(id, d, b)) && '\n' !in RunTag(RunCommand(id, d, b))
  {
    ProgramWord();
  }

  /** The fixed tags hold no comma or line break. */
  lemma ActionTagPlain()
    ensures ',' !in ActionTag && '\n' !in ActionTag
  {
  }

  lemma DevTypeTagPlain()
    ensures ',' !in DevTypeTag && '\n' !in DevTypeTag
  {
  }

  lemma SubsystemTagPlain()
    ensures ',' !in SubsystemTag && '\n' !in SubsystemTag
  {
  }

  lemma ProgramWord()
    ensures Word(Program)
  {
    ProgramLacks(',');
    ProgramLacks(' ');
    ProgramLacks('"');
    ProgramLacks('\n');
  }

  lemma ProgramLacks(c: char)
    requires c == ',' || c == ' ' || c == '"' || c == '\n'
    ensures c !in Program
  {
  }

  /** A rule line has no line break and ends in a quote. */
  lemma RuleLineShape(r: Rule)
    requires Storable(r)
    ensures '\n' !in ToUdevRuleString(r)
    ensures |ToUdevRuleString(r)| > 0 && ToUdevRuleString(r)[|ToUdevRuleString(r)| - 1] == '"'
  {
    RuleTagsJoin(r);
    var t := RuleTags(r);
    NoSepInJoin(t, ',', '\n');
  }

  /** Scanning text written line by line gives the lines back, when none
    * holds a line break or ends in a carriage return. */
  lemma ScanLinesOfLines(lines: seq<string>)
    requires forall i :: 0 <= i < |lines| ==> '\n' !in lines[i]
    requires forall i :: 0 <= i < |lines| ==> lines[i] == "" || lines[i][|lines[i]| - 1] != '\r'
    ensures ScanLines(LinesText(lines)) == lines
  {
    var parts := Split(LinesText(lines), '\n');
    SplitLinesText(lines);
    assert parts[|parts| - 1] == "";
    assert parts[..|parts| - 1] == lines;
    var r := ScanLines(LinesText(lines));
    assert |r| == |lines|;
    forall i | 0 <= i < |lines|
      ensures r[i] == lines[i]
    {
      assert DropCR(lines[i]) == lines[i];
    }
  }

  lemma {:induction false} SplitLinesText(lines: seq<string>)
    requires forall i :: 0 <= i < |lines| ==> '\n' !in lines[i]
    ensures Split(LinesText(lines), '\n') == lines + [""]
    decreases |lines|
  {
    if |lines| > 0 {
      SplitLinesText(lines[1..]);
      SplitPrefix(lines[0], LinesText(lines[1..]), '\n');
      assert [lines[0]] + (lines[1..] + [""]) == lines + [""];
    }
  }

  /** A line whose first character is '#' is a comment. */
  lemma CommentLineSkipped(line: string)
    requires |line| > 0 && line[0] == '#'
    ensures ParseRuleLine(line).None?
  {
    TrimLeftStop(line, {' '});
  }

  /** A blank line gives no rule. */
  lemma BlankLineSkipped()
    ensures ParseRuleLine("").None?
  {
    OneTagLine("");
  }

  /** The rule lines read back as the normalised rules. */
  lemma RuleLinesParse(rules: seq<Rule>)
    requires forall i :: 0 <= i < |rules| ==> Storable(rules[i])
    ensures forall i :: 0 <= i < |rules| ==> |rules[i].container| >= 8
    ensures var back := ParseRules(RuleLines(rules));
            |back| == |rules| && forall i :: 0 <= i < |rules| ==> back[i] == Normalised(rules[i])
  {
    assert forall i :: 0 <= i < |rules| ==> |rules[i].container| >= 8;
    var lines := RuleLines(rules);
    var out := seq(|rules|, i requires 0 <= i < |rules| => Normalised(rules[i]));
    forall i | 0 <= i < |lines|
      ensures ParseRuleLine(lines[i]) == Some(out[i])
    {
      RuleLineParses(rules[i]);
    }
    FilterMapEvery(lines, LineParser(), out);
  }

  /** One written rule line reads back as the normalised rule. */
  lemma RuleLineParses(r: Rule)
    requires Storable(r)
    ensures ParseRuleLine(ToUdevRuleString(r)) == Some(Normalised(r))
  {
    var line := ToUdevRuleString(r);
    RuleLineSplits(r);
    ScanRuleTags(r);
    JoinDevName(Base(r.name));
  }

  /** A rule line is not a comment, and splits into its tags. */
  lemma RuleLineSplits(r: Rule)
    requires Storable(r)
    ensures TrimLeft(ToUdevRuleString(r), {' '}) == ToUdevRuleString(r)
    ensures !HasPrefix(ToUdevRuleString(r), "#")
    ensures Split(ToUdevRuleString(r), ',') == RuleTags(r)
  {
    var line := ToUdevRuleString(r);
    RuleTagsJoin(r);
    SplitJoin(RuleTags(r), ',');
    assert line[0] == 'K';
    TrimLeftStop(line, {' '});
  }

  /** The tags of a rule line, read in order: the KERNEL tag sets the name,
    * three ignored tags, then the RUN tag sets the id and the device. */
  lemma ScanRuleTags(r: Rule)
    requires Storable(r)
    ensures ScanTags(RuleTags(r)) == TagFields(Base(r.name), TrimContainerID(r), r.ctrDevName)
  {
    var b := Base(r.name);
    KernelTagReads(NoFields, b);
    RunTagReads(NoFields.(name := b), TrimContainerID(r), r.ctrDevName, b);
    ActionTagIgnored();
    DevTypeTagIgnored();
    SubsystemTagIgnored();
    var t := RuleTags(r);
    ScanFive(t[0], t[1], t[2], t[3], t[4], b, TrimContainerID(r), r.ctrDevName);
  }

  /** Five tags read as a KERNEL tag, three ignored tags and a RUN tag. */
  lemma ScanFive(k: string, a: string, d: string, s: string, run: string, b: string, id: string, dev: string)
    requires TagStep(NoFields, k) == NoFields.(name := b)
    requires Ignored(a) && Ignored(d) && Ignored(s)
    requires TagStep(NoFields.(name := b), run) == TagFields(b, id, dev)
    ensures ScanTags([k, a, d, s, run]) == TagFields(b, id, dev)
  {
    ScanHead(k, a, d, s, b);
    ScanLast([k, a, d, s], run, NoFields.(name := b), TagFields(b, id, dev));
    FiveAppended(k, a, d, s, run);
  }

  lemma FiveAppended(k: string, a: string, d: string, s: string, run: string)
    ensures [k, a, d, s] + [run] == [k, a, d, s, run]
  {
  }

  /** The KERNEL tag and three ignored tags give the name alone. */
  lemma ScanHead(k: string, a: string, d: string, s: string, b: string)
    requires TagStep(NoFields, k) == NoFields.(name := b)
    requires Ignored(a) && Ignored(d) && Ignored(s)
    ensures ScanTags([k, a, d, s]) == NoFields.(name := b)
  {
    var f1 := NoFields.(name := b);
    ScanSnoc([], k);
    EmptyPlusOne(k);
    ScanIgnored([k], a, f1);
    ScanIgnored([k] + [a], d, f1);
    ScanIgnored([k] + [a] + [d], s, f1);
    FourAppended(k, a, d, s);
  }

  lemma EmptyPlusOne(k: string)
    ensures [] + [k] == [k]
  {
  }

  lemma FourAppended(k: string, a: string, d: string, s: string)
    ensures [k] + [a] + [d] + [s] == [k, a, d, s]
  {
  }

  /** The last tag read is one more step. */
  lemma ScanLast(head: seq<string>, t: string, g: TagFields, h: TagFields)
    requires ScanTags(head) == g && TagStep(g, t) == h
    ensures ScanTags(head + [t]) == h
  {
    ScanSnoc(head, t);
  }

  /** An ignored tag leaves what was read unchanged. */
  lemma ScanIgnored(tags: seq<string>, a: string, f: TagFields)
    requires ScanTags(tags) == f && Ignored(a)
    ensures ScanTags(tags + [a]) == f
  {
    ScanSnoc(tags, a);
    IgnoredTag(f, a);
  }

  /** Reading one more tag is one more step. */
  lemma ScanSnoc(tags: seq<string>, t: string)
    ensures ScanTags(tags + [t]) == TagStep(ScanTags(tags), t)
  {
    assert (tags + [t])[..|tags|] == tags;
  }

  lemma JoinFive(a: string, b: string, c: string, d: string, e: string, sep: char)
    ensures Join([a, b, c, d, e], sep) == a + [sep] + b + [sep] + c + [sep] + d + [sep] + e
  {
    assert Join([d, e], sep) == d + [sep] + e by {
      assert [d, e][1..] == [e];
    }
    assert Join([c, d, e], sep) == c + [sep] + Join([d, e], sep) by {
      assert [c, d, e][1..] == [d, e];
    }
    assert Join([b, c, d, e], sep) == b + [sep] + Join([c, d, e], sep) by {
      assert [b, c, d, e][1..] == [c, d, e];
    }
    assert Join([a, b, c, d, e], sep) == a + [sep] + Join([b, c, d, e], sep) by {
      assert [a, b, c, d, e][1..] == [b, c, d, e];
    }
  }

  /** Surrounding spaces are all a tag loses. */
  lemma TrimTagPlain(tag: string)
    requires |tag| > 0 && tag[0] != ' ' && tag[|tag| - 1] != ' '
    ensures TrimTag(tag) == tag
  {
    TrimLeftStop(tag, {' '});
    TrimRightStop(tag, {' '});
  }

  lemma TrimTagSpace(tag: string)
    requires |tag| > 1 && tag[0] == ' ' && tag[1] != ' ' && tag[|tag| - 1] != ' '
    ensures TrimTag(tag) == tag[1..]
  {
    TrimLeftOne(tag, {' '});
    TrimRightStop(tag[1..], {' '});
  }

  /** A tag whose text starts neither "KERNEL" nor "RUN". */
  predicate Ignored(tag: string)
  {
    |TrimTag(tag)| > 0 && TrimTag(tag)[0] != 'K' && TrimTag(tag)[0] != 'R'
  }

  /** An ignored tag changes nothing. */
  lemma IgnoredTag(f: TagFields, tag: string)
    requires Ignored(tag)
    ensures TagStep(f, tag) == f
  {
  }

  lemma ActionTagIgnored()
    ensures Ignored(ActionTag)
  {
    TrimTagPlain(ActionTag);
  }

  lemma DevTypeTagIgnored()
    ensures Ignored(DevTypeTag)
  {
    TrimTagSpace(DevTypeTag);
  }

  lemma SubsystemTagIgnored()
    ensures Ignored(SubsystemTag)
  {
    TrimTagSpace(SubsystemTag);
  }

  /** The KERNEL tag gives the base name. */
  lemma KernelTagReads(f: TagFields, b: string)
    requires Word(b)
    ensures TagStep(f, KernelTag(b)) == f.(name := b)
  {
    KernelTagSplit(b);
    var t := KernelTag(b);
    assert t[0] == 'K' && t[..6] == "KERNEL";
    assert HasPrefix(t, "KERNEL") && !HasPrefix(t, "RUN");
    assert KernelName(b + "*") == b by {
      assert (b + "*")[..|b|] == b;
    }
  }

  /** A KERNEL tag reads as its quoted pattern. */
  lemma KernelTagSplit(b: string)
    requires '"' !in b
    ensures TrimTag(KernelTag(b)) == KernelTag(b)
    ensures Split(KernelTag(b), '"') == ["KERNEL==", b + "*", ""]
  {
    var t := KernelTag(b);
    var head := "KERNEL==";
    assert t == head + ['"'] + (b + "*") + ['"'] + "";
    assert '"' !in head;
    SplitThree(head, b + "*", "", '"');
    TrimTagPlain(t);
  }

  /** The RUN tag gives the third and fifth command words. */
  lemma RunTagReads(f: TagFields, id: string, d: string, b: string)
    requires Word(id) && Word(d) && Word(b)
    ensures TagStep(f, RunTag(RunCommand(id, d, b))) == f.(containerID := id, ctrDevName := d)
  {
    var cmd := RunCommand(id, d, b);
    CommandWords(id, d, b);
    RunTagSplit(cmd);
    var t := TrimTag(RunTag(cmd));
    assert t[0] == 'R' && t[..3] == "RUN";
    assert !HasPrefix(t, "KERNEL") && HasPrefix(t, "RUN");
    assert RunStep(f, t) == f.(containerID := id, ctrDevName := d);
  }

  /** The helper's command is six words free of quotes. */
  lemma CommandWords(id: string, d: string, b: string)
    requires Word(id) && Word(d) && Word(b)
    ensures '"' !in RunCommand(id, d, b)
    ensures var w := Split(RunCommand(id, d, b), ' '); |w| == 6 && w[2] == id && w[4] == d
  {
    var words := CommandJoin(id, d, b);
    assert forall i :: 0 <= i < |words| ==> ' ' !in words[i] && '"' !in words[i];
    SplitJoin(words, ' ');
    NoSepInJoin(words, ' ', '"');
  }

  /** The helper's command is its six words joined by spaces. */
  lemma CommandJoin(id: string, d: string, b: string) returns (words: seq<string>)
    requires Word(id) && Word(d) && Word(b)
    ensures words == [Program, ActionVar, id, NameVar, d, b]
    ensures Join(words, ' ') == RunCommand(id, d, b)
    ensures forall i :: 0 <= i < |words| ==> Word(words[i])
  {
    ProgramWord();
    var env, name := ActionVar, NameVar;
    assert Word(env) && Word(name);
    words := [Program, env, id, name, d, b];
    assert words[1..] == [env, id, name, d, b];
    JoinFive(env, id, name, d, b, ' ');
  }

  /** A RUN tag reads as its quoted command. */
  lemma RunTagSplit(cmd: string)
    requires '"' !in cmd
    ensures TrimTag(RunTag(cmd)) == RunTag(cmd)[1..]
    ensures Split(TrimTag(RunTag(cmd)), '"') == ["RUN{program}+=", cmd, ""]
  {
    var run := RunTag(cmd);
    TrimTagSpace(run);
    var head := "RUN{program}+=";
    assert run[1..] == head + ['"'] + cmd + ['"'] + "";
    assert '"' !in head;
    SplitThree(head, cmd, "", '"');
  }
}

// The SELinux helpers of utils/selinux.go: reading and rewriting the
// "KEY=value" settings of the SELinux configuration file, the four-part
// security context "user:role:type:level", and where selinuxfs is mounted.
// The file is given as the lines `bufio.Scanner` yields; opening, scanning
// and writing it are left to the caller.
module SELinux {
  import opened Wrappers
  import opened Strs

  // ---------------------------------------------------------------------
  // The configuration file

  /** A line starting with '#'. */
  predicate IsComment(line: string)
  {
    |line| > 0 && line[0] == '#'
  }

  /** A line both `SeconfigGet` and `SeconfigSet` treat as the setting of
    * `key`: not a comment, exactly one '=', and `key` before it. */
  predicate IsSettingOf(line: string, key: string)
  {
    var fields := Split(line, '=');
    !IsComment(line) && |fields| == 2 && fields[0] == key
  }

  /** `SeconfigGet`: the value of the first setting of `key`; without one,
    * an error. */
  function SeconfigGet(lines: seq<string>, key: string): (r: Result<string>)
    ensures r.Err? <==> forall i :: 0 <= i < |lines| ==> !IsSettingOf(lines[i], key)
    ensures r.Err? ==> r.msg == "Parse SELinux config file err"
    ensures r.Ok? ==> exists i :: 0 <= i < |lines| && IsSettingOf(lines[i], key) && r.value == Split(lines[i], '=')[1] &&
                                  forall j :: 0 <= j < i ==> !IsSettingOf(lines[j], key)
  {
    if |lines| == 0 then Err("Parse SELinux config file err")
    else if IsSettingOf(lines[0], key) then Ok(Split(lines[0], '=')[1])
    else
      var r := SeconfigGet(lines[1..], key);
      assert forall i :: 1 <= i < |lines| ==> lines[i] == lines[1..][i - 1];
      if r.Ok? then
        var k :| 0 <= k < |lines[1..]| && IsSettingOf(lines[1..][k], key) && r.value == Split(lines[1..][k], '=')[1] &&
                 forall j :: 0 <= j < k ==> !IsSettingOf(lines[1..][j], key);
        assert forall j :: 0 <= j < k + 1 ==> !IsSettingOf(lines[j], key) by {
          forall j | 0 <= j < k + 1 ensures !IsSettingOf(lines[j], key) {
            if j > 0 { assert lines[j] == lines[1..][j - 1]; }
          }
        }
        r
      else r
  }

  /** The line `SeconfigSet` writes for a line of the file, without its
    * newline. */
  function SetLine(line: string, key: string, value: string): string
  {
    if IsSettingOf(line, key) then key + "=" + value else line
  }

  /** The lines `SeconfigSet` writes. */
  function SetLines(lines: seq<string>, key: string, value: string): (r: seq<string>)
  {
    seq(|lines|, i requires 0 <= i < |lines| => SetLine(lines[i], key, value))
  }

  /** Lines joined as a text file: every one ends in "\n". */
  function Text(lines: seq<string>): string
  {
    if |lines| == 0 then "" else Text(lines[..|lines| - 1]) + lines[|lines| - 1] + "\n"
  }

  /** `SeconfigSet`: the buffer written back to the file. */
  method SeconfigSet(lines: seq<string>, key: string, value: string) returns (content: string)
    ensures content == Text(SetLines(lines, key, value))
  {
    content := "";
    var i := 0;
    while i < |lines|
      invariant 0 <= i <= |lines|
      invariant content == Text(SetLines(lines[..i], key, value))
    {
      var txt := lines[i];
      assert SetLines(lines[..i + 1], key, value)[..i] == SetLines(lines[..i], key, value);
      if IsComment(txt) {
        content := content + txt + "\n";
      } else {
        var fields := Split(txt, '=');
        if |fields| == 2 && fields[0] == key {
          content := content + (key + "=" + value) + "\n";
        } else {
          content := content + txt + "\n";
        }
      }
      i := i + 1;
    }
    assert lines[..i] == lines;
  }

  /** Every line gives one line of output: the text has one newline per
    * line of the file. */
  lemma {:induction false} TextLineCount(lines: seq<string>)
    requires forall i :: 0 <= i < |lines| ==> '\n' !in lines[i]
    ensures Count(Text(lines), '\n') == |lines|
    decreases |lines|
  {
    if |lines| > 0 {
      var init := lines[..|lines| - 1];
      TextLineCount(init);
      var last := lines[|lines| - 1];
      CountConcat(Text(init) + last, "\n", '\n');
      CountConcat(Text(init), last, '\n');
      CountNone(last, '\n');
    }
  }

  /** `SeconfigSet` keeps the number of lines and rewrites exactly the
    * settings of the key; all other lines are copied. */
  lemma SetKeepsOtherLines(lines: seq<string>, key: string, value: string)
    requires forall i :: 0 <= i < |lines| ==> '\n' !in lines[i]
    requires '\n' !in key && '\n' !in value
    ensures var out := SetLines(lines, key, value);
            |out| == |lines| && Count(Text(out), '\n') == |lines| &&
            forall i :: 0 <= i < |lines| ==>
              (IsSettingOf(lines[i], key) ==> out[i] == key + "=" + value) &&
              (!IsSettingOf(lines[i], key) ==> out[i] == lines[i])
  {
    var out := SetLines(lines, key, value);
    forall i | 0 <= i < |out| ensures '\n' !in out[i] {
      assert out[i] == SetLine(lines[i], key, value);
    }
    TextLineCount(out);
  }

  /** A rewritten line is again the setting of the key when the value has
    * no '='. */
  lemma WrittenIsSetting(line: string, key: string, value: string)
    requires IsSettingOf(line, key) && '=' !in value
    ensures IsSettingOf(key + "=" + value, key)
    ensures Split(key + "=" + value, '=')[1] == value
  {
    var fields := Split(line, '=');
    assert '=' !in key;
    SplitTwo(key, value, '=');
    var w := key + "=" + value;
    if |key| > 0 {
      assert line == Join(fields, '=') == key + "=" + fields[1];
      assert line[0] == key[0] == w[0];
    } else {
      assert w[0] == '=';
    }
  }

  /** Rewriting twice writes what rewriting once does. */
  lemma SetIdempotent(lines: seq<string>, key: string, value: string)
    ensures SetLines(SetLines(lines, key, value), key, value) == SetLines(lines, key, value)
  {
    var once := SetLines(lines, key, value);
    forall i | 0 <= i < |lines|
      ensures SetLine(once[i], key, value) == once[i]
    {
      if IsSettingOf(lines[i], key) && IsSettingOf(once[i], key) {
        assert once[i] == key + "=" + value;
      }
    }
  }

  /** After the value of an existing setting is rewritten, reading the key
    * gives the new value, provided the value has no '='. */
  lemma GetAfterSet(lines: seq<string>, key: string, value: string)
    requires SeconfigGet(lines, key).Ok? && '=' !in value
    ensures SeconfigGet(SetLines(lines, key, value), key) == Ok(value)
  {
    var out := SetLines(lines, key, value);
    var k :| 0 <= k < |lines| && IsSettingOf(lines[k], key) && forall j :: 0 <= j < k ==> !IsSettingOf(lines[j], key);
    WrittenIsSetting(lines[k], key, value);
    assert out[k] == key + "=" + value;
    assert forall j :: 0 <= j < k ==> out[j] == lines[j];
    FirstSettingAt(out, key, k);
  }

  /** `SeconfigGet` reads the first setting of the key. */
  lemma {:induction false} FirstSettingAt(lines: seq<string>, key: string, k: nat)
    requires k < |lines| && IsSettingOf(lines[k], key)
    requires forall j :: 0 <= j < k ==> !IsSettingOf(lines[j], key)
    ensures SeconfigGet(lines, key) == Ok(Split(lines[k], '=')[1])
    decreases k
  {
    if k > 0 {
      assert forall j :: 0 <= j < k - 1 ==> lines[1..][j] == lines[j + 1];
      FirstSettingAt(lines[1..], key, k - 1);
    }
  }

  // ---------------------------------------------------------------------
  // Security contexts

  /** The fields `NewContext` fills from "user:role:type:level"; the level
    * keeps any further ':'. */
  function ParseContext(scon: string): (m: map<string, string>)
    requires scon == "" || Count(scon, ':') >= 3
  {
    if scon == "" then map[]
    else
      var con := SplitN(scon, ':', 4);
      FourParts(scon);
      map["user" := con[0], "role" := con[1], "type" := con[2], "level" := con[3]]
  }

  /** A Go map read: a missing key reads as "". */
  function Lookup(m: map<string, string>, k: string): string
  {
    if k in m then m[k] else ""
  }

  /** `Get`: the four fields joined by ':'. */
  function ContextText(m: map<string, string>): string
  {
    Lookup(m, "user") + ":" + Lookup(m, "role") + ":" + Lookup(m, "type") + ":" + Lookup(m, "level")
  }

  lemma FourParts(scon: string)
    requires Count(scon, ':') >= 3
    ensures |SplitN(scon, ':', 4)| == 4
  {
    var con := SplitN(scon, ':', 4);
    CountJoinLast(con, ':');
    if |con| < 4 {
      CountNone(con[|con| - 1], ':');
    }
  }

  lemma JoinFour(a: string, b: string, c: string, d: string, sep: char)
    ensures Join([a, b, c, d], sep) == a + [sep] + b + [sep] + c + [sep] + d
  {
    var l := [a, b, c, d];
    assert l[1..] == [b, c, d] && l[1..][1..] == [c, d] && l[1..][1..][1..] == [d];
    assert Join([d], sep) == d;
    assert Join([c, d], sep) == c + [sep] + d;
    assert Join([b, c, d], sep) == b + [sep] + (c + [sep] + d);
    assert Join(l, sep) == a + [sep] + (b + [sep] + (c + [sep] + d));
  }

  /** A context with at least four ':'-parts gives its text back. */
  lemma ContextRoundTrip(scon: string)
    requires Count(scon, ':') >= 3
    ensures ContextText(ParseContext(scon)) == scon
  {
    var con := SplitN(scon, ':', 4);
    FourParts(scon);
    assert con == [con[0], con[1], con[2], con[3]];
    JoinFour(con[0], con[1], con[2], con[3], ':');
    FieldsText(con[0], con[1], con[2], con[3]);
  }

  /** The text of the four fields is the four values joined by ':'. */
  lemma FieldsText(a: string, b: string, c: string, d: string)
    ensures ContextText(map["user" := a, "role" := b, "type" := c, "level" := d]) == a + [':'] + b + [':'] + c + [':'] + d
  {
    var m := map["user" := a, "role" := b, "type" := c, "level" := d];
    assert Lookup(m, "user") == a && Lookup(m, "role") == b;
    assert Lookup(m, "type") == c && Lookup(m, "level") == d;
  }

  /** Setting the type changes only the third field of the text. */
  lemma SetTypeText(scon: string, t: string)
    requires Count(scon, ':') >= 3
    ensures var con := SplitN(scon, ':', 4);
            |con| == 4 &&
            ContextText(ParseContext(scon)["type" := t]) == con[0] + ":" + con[1] + ":" + t + ":" + con[3]
  {
    FourParts(scon);
  }

  /** The empty context prints as three separators. */
  lemma EmptyContextText()
    ensures ContextText(ParseContext("")) == ":::"
  {
  }

  /** `SELinuxContext`, a map the caller changes in place. */
  class Context {
    var fields: map<string, string>

    /** `NewContext`: the empty text gives an empty context; Go indexes
      * past the parts of a non-empty text with fewer than four. */
    constructor (scon: string)
      requires scon == "" || Count(scon, ':') >= 3
      ensures fields == ParseContext(scon)
      ensures scon != "" ==> Get() == scon
    {
      fields := ParseContext(scon);
      if scon != "" {
        ContextRoundTrip(scon);
      }
    }

    /** `Get`. */
    function Get(): string
      reads this
    {
      ContextText(fields)
    }

    /** `GetType`. */
    function GetType(): string
      reads this
    {
      Lookup(fields, "type")
    }

    /** `SetType`: only the type changes. */
    method SetType(t: string)
      modifies this
      ensures fields == old(fields)["type" := t]
      ensures GetType() == t
      ensures forall k :: k != "type" ==> Lookup(fields, k) == Lookup(old(fields), k)
    {
      fields := fields["type" := t];
    }
  }

  // ---------------------------------------------------------------------
  // The selinuxfs mount point

  const SelinuxDir: string := "/selinux"
  const SysFsSelinuxDir: string := "/sys/fs/selinux"

  /** `GetSelinuxMountPount`: the first of the two places that exists under
    * the root, else the first. */
  function GetSelinuxMountPoint(rootfs: string, isExist: string -> bool): (r: string)
    ensures r == SelinuxDir || r == SysFsSelinuxDir
    ensures r == SysFsSelinuxDir <==> !isExist(rootfs + SelinuxDir) && isExist(rootfs + SysFsSelinuxDir)
  {
    if isExist(rootfs + SelinuxDir) then SelinuxDir
    else if isExist(rootfs + SysFsSelinuxDir) then SysFsSelinuxDir
    else SelinuxDir
  }
}

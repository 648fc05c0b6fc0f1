// The udev controller (pkg/udevd/udevd_controller.go): the rules kept in
// memory, deduplicated by disk, container device and short container id,
// with a dirty flag that decides whether `ToDisk` writes the rule file.
// Locking the rule file and running `udevadm control --reload` are outside
// the model; their outcomes are inputs.
module UdevController {
  import opened Wrappers
  import opened Strs
  import opened Seqs
  import opened UdevRules

  /** The comparison `AddRule` and `RemoveRule` make: same disk, same
    * container device, same short id. */
  predicate SameRule(r: Rule, rule: Rule)
  {
    r.name == rule.name && r.ctrDevName == rule.ctrDevName &&
    |r.container| >= 8 && |rule.container| >= 8 && TrimContainerID(r) == TrimContainerID(rule)
  }

  /** The comparison as a value, for searching the list. */
  function Matches(r: Rule): Rule -> bool
  {
    rule => SameRule(r, rule)
  }

  /** What the comparison needs in Go: it takes the short id of both rules
    * once disk and container device agree, and the short id panics below
    * eight characters. */
  predicate Comparable(r: Rule, rules: seq<Rule>)
  {
    forall i :: 0 <= i < |rules| && rules[i].name == r.name && rules[i].ctrDevName == r.ctrDevName ==>
      |r.container| >= 8 && |rules[i].container| >= 8
  }

  /** No two stored rules are the same rule. */
  predicate NoDuplicates(rules: seq<Rule>)
  {
    forall i, j :: 0 <= i < j < |rules| ==> !SameRule(rules[i], rules[j])
  }

  /** The list after `AddRule`: unchanged when the rule is already there,
    * otherwise the rule is appended. */
  function Added(rules: seq<Rule>, r: Rule): seq<Rule>
  {
    if FirstIndex(rules, Matches(r)).Some? then rules else rules + [r]
  }

  /** The list after `RemoveRule`: the first equal rule is dropped. */
  function Removed(rules: seq<Rule>, r: Rule): seq<Rule>
  {
    match FirstIndex(rules, Matches(r))
    case None => rules
    case Some(i) => RemoveAt(rules, i)
  }

  /** The comparison is symmetric. */
  lemma SameRuleSymmetric(a: Rule, b: Rule)
    ensures SameRule(a, b) <==> SameRule(b, a)
  {
  }

  /** After adding, the list holds the rule. */
  lemma AddedHolds(rules: seq<Rule>, r: Rule)
    requires |r.container| >= 8
    ensures FirstIndex(Added(rules, r), Matches(r)).Some?
  {
    if FirstIndex(rules, Matches(r)).None? {
      var s := rules + [r];
      assert Matches(r)(s[|rules|]);
    }
  }

  /** Adding the same rule twice is adding it once. */
  lemma AddIdempotent(rules: seq<Rule>, r: Rule)
    requires |r.container| >= 8
    ensures Added(Added(rules, r), r) == Added(rules, r)
  {
    AddedHolds(rules, r);
  }

  /** Removing a rule that was just added to a list without it gives the
    * list back. */
  lemma RemoveAfterAdd(rules: seq<Rule>, r: Rule)
    requires |r.container| >= 8 && FirstIndex(rules, Matches(r)).None?
    ensures Removed(Added(rules, r), r) == rules
  {
    var s := rules + [r];
    assert Matches(r)(s[|rules|]);
    assert forall j :: 0 <= j < |rules| ==> s[j] == rules[j];
    assert FirstIndex(s, Matches(r)) == Some(|rules|);
    assert RemoveAt(s, |rules|) == rules;
  }

  /** Adding keeps the list free of duplicates. */
  lemma AddKeepsNoDuplicates(rules: seq<Rule>, r: Rule)
    requires NoDuplicates(rules)
    ensures NoDuplicates(Added(rules, r))
  {
    if FirstIndex(rules, Matches(r)).None? {
      var s := rules + [r];
      forall i, j | 0 <= i < j < |s|
        ensures !SameRule(s[i], s[j])
      {
        if j == |rules| {
          assert !Matches(r)(rules[i]);
          SameRuleSymmetric(r, rules[i]);
        }
      }
    }
  }

  /** Removing keeps the list free of duplicates, and then no equal rule is
    * left. */
  lemma RemoveLeavesNone(rules: seq<Rule>, r: Rule)
    requires NoDuplicates(rules)
    ensures NoDuplicates(Removed(rules, r))
    ensures FirstIndex(Removed(rules, r), Matches(r)).None?
  {
    var fi := FirstIndex(rules, Matches(r));
    if fi.Some? {
      var k := fi.value;
      var s := RemoveAt(rules, k);
      assert forall j :: 0 <= j < k ==> s[j] == rules[j];
      assert forall j :: k <= j < |s| ==> s[j] == rules[j + 1];
      forall j | 0 <= j < |s|
        ensures !Matches(r)(s[j])
      {
        if j >= k {
          assert s[j] == rules[j + 1];
          if SameRule(r, rules[j + 1]) {
            assert SameRule(rules[k], rules[j + 1]);
          }
        }
      }
    }
  }

  /** Removing drops exactly one rule when an equal one is stored, and keeps
    * the order of the others. */
  lemma RemoveDropsOne(rules: seq<Rule>, r: Rule)
    ensures FirstIndex(rules, Matches(r)).None? ==> Removed(rules, r) == rules
    ensures FirstIndex(rules, Matches(r)).Some? ==>
              var k := FirstIndex(rules, Matches(r)).value;
              |Removed(rules, r)| == |rules| - 1 && Removed(rules, r) == rules[..k] + rules[k + 1..]
  {
  }

  /** What `saveRules` runs into: creating or chmod-ing the file fails, the
    * final sync fails, or the file is saved.  Failed line writes are only
    * logged. */
  datatype SaveFault = CreateFailed(err: string) | ChmodFailed(err: string) | SyncFailed(err: string) | Saved

  /** `udevdController`. */
  class Controller {
    const useUdevd: bool
    var rules: seq<Rule>
    var dirty: bool

    /** `NewUdevdController`: the controller is switched off when asking
      * whether udevd is in use fails. */
    constructor (using: Result<bool>)
      ensures useUdevd == (using.Ok? && using.value)
      ensures rules == [] && !dirty
    {
      useUdevd := using.Ok? && using.value;
      rules := [];
      dirty := false;
    }

    /** `LoadRules`: the rules of the file replace the list; an open error
      * leaves it as it was.  The dirty flag is not touched. */
    method LoadRules(file: RuleFile) returns (err: Option<string>)
      modifies this
      ensures dirty == old(dirty)
      ensures !useUdevd ==> err.None? && rules == old(rules)
      ensures useUdevd && file.OpenFailed? ==> err == Some(file.err) && rules == old(rules)
      ensures useUdevd && !file.OpenFailed? ==>
                err.None? && rules == (if file.NoRuleFile? then [] else ParseRules(ScanLines(file.text)))
    {
      if !useUdevd {
        return None;
      }
      var loaded := UdevRules.LoadRules(file);
      if loaded.Err? {
        return Some(loaded.msg);
      }
      rules := loaded.value;
      return None;
    }

    /** `AddRule`: a rule equal to a stored one is ignored; otherwise it is
      * appended and the controller becomes dirty. */
    method AddRule(r: Rule)
      modifies this
      requires useUdevd ==> Comparable(r, rules)
      ensures !useUdevd ==> rules == old(rules) && dirty == old(dirty)
      ensures useUdevd ==> rules == Added(old(rules), r)
      ensures useUdevd ==> dirty == (old(dirty) || FirstIndex(old(rules), Matches(r)).None?)
    {
      if !useUdevd {
        return;
      }
      var i := 0;
      while i < |rules|
        invariant 0 <= i <= |rules|
        invariant forall j :: 0 <= j < i ==> !SameRule(r, rules[j])
      {
        var rule := rules[i];
        if r.name == rule.name && r.ctrDevName == rule.ctrDevName && TrimContainerID(r) == TrimContainerID(rule) {
          assert Matches(r)(rules[i]);
          return;
        }
        i := i + 1;
      }
      assert forall j :: 0 <= j < |rules| ==> !Matches(r)(rules[j]);
      dirty := true;
      rules := rules + [r];
    }

    /** `RemoveRule`: the first equal rule is dropped and the controller
      * becomes dirty; without one nothing changes. */
    method RemoveRule(r: Rule)
      modifies this
      requires useUdevd ==> Comparable(r, rules)
      ensures !useUdevd ==> rules == old(rules) && dirty == old(dirty)
      ensures useUdevd ==> rules == Removed(old(rules), r)
      ensures useUdevd ==> dirty == (old(dirty) || FirstIndex(old(rules), Matches(r)).Some?)
    {
      if !useUdevd {
        return;
      }
      var i := 0;
      while i < |rules|
        invariant 0 <= i <= |rules|
        invariant forall j :: 0 <= j < i ==> !SameRule(r, rules[j])
      {
        var rule := rules[i];
        if r.name == rule.name && r.ctrDevName == rule.ctrDevName && TrimContainerID(r) == TrimContainerID(rule) {
          assert Matches(r)(rules[i]);
          assert forall j :: 0 <= j < i ==> !Matches(r)(rules[j]);
          dirty := true;
          rules := RemoveAt(rules, i);
          return;
        }
        i := i + 1;
      }
      assert forall j :: 0 <= j < |rules| ==> !Matches(r)(rules[j]);
    }

    /** `ToDisk`: a switched-off or clean controller writes nothing;
      * otherwise the rule file is written and udev reloaded.  `written` is
      * the file's new content, if it was touched.  The dirty flag is never
      * reset. */
    method ToDisk(save: SaveFault, reloadErr: Option<string>) returns (written: Option<string>, err: Option<string>)
      requires useUdevd && dirty ==> forall i :: 0 <= i < |rules| ==> |rules[i].container| >= 8
      ensures !useUdevd || !dirty ==> written.None? && err.None?
      ensures useUdevd && dirty ==>
                match save
                case CreateFailed(e) => written.None? && err == Some(e)
                case ChmodFailed(e) => written == Some("") && err == Some(e)
                case SyncFailed(e) => written == Some(SaveRules(rules)) && err == Some(e)
                case Saved => written == Some(SaveRules(rules)) && err == reloadErr
    {
      if !useUdevd || !dirty {
        return None, None;
      }
      match save
      case CreateFailed(e) =>
        return None, Some(e);
      case ChmodFailed(e) =>
        return Some(""), Some(e);
      case SyncFailed(e) =>
        return Some(SaveRules(rules)), Some(e);
      case Saved =>
        return Some(SaveRules(rules)), reloadErr;
    }
  }
}

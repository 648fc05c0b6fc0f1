// The in-memory reference count of bind mounts kept next to the hook
// configuration (config/config.go, `bindsInfo`): which container paths are
// taken, and for every host path how many binds use it and with which mount
// options.
module BindIndex {
  import opened Wrappers
  import opened Strs
  import opened Seqs

  /** A stored bind string split into its three fields. */
  datatype HostMapping = HostMapping(pathOnHost: string, pathInContainer: string, permission: string)

  /** `parseMapping`: "host:container:permission" cut at the first two ':'
    * (`strings.SplitN(bind, ":", 3)`), the permission keeping any further
    * ':'; fewer than two ':' is an error. */
  function ParseMapping(bind: string): (r: Result<HostMapping>)
    ensures r.Err? ==> r.msg == "bind must have two : in string"
  {
    match IndexOf(bind, ':')
    case None => Err("bind must have two : in string")
    case Some(i) =>
      var rest := bind[i + 1..];
      match IndexOf(rest, ':')
      case None => Err("bind must have two : in string")
      case Some(j) => Ok(HostMapping(bind[..i], rest[..j], rest[j + 1..]))
  }

  /** The fields are the three pieces of `strings.SplitN(bind, ":", 3)`, and
    * there are fewer than three pieces exactly when parsing fails. */
  lemma ParseMappingIsSplitN(bind: string)
    ensures var a := SplitN(bind, ':', 3);
            (ParseMapping(bind).Ok? <==> |a| == 3) &&
            (|a| == 3 ==> ParseMapping(bind).value == HostMapping(a[0], a[1], a[2]))
  {
    var i := IndexOf(bind, ':');
    if i.Some? {
      var rest := bind[i.value + 1..];
      var j := IndexOf(rest, ':');
      assert SplitN(bind, ':', 3) == [bind[..i.value]] + SplitN(rest, ':', 2);
      if j.Some? {
        assert SplitN(rest, ':', 2) == [rest[..j.value]] + SplitN(rest[j.value + 1..], ':', 1);
      }
    }
  }

  /** A bind string parses exactly when it holds at least two ':'. */
  lemma ParseMappingCount(bind: string)
    ensures ParseMapping(bind).Ok? <==> Count(bind, ':') >= 2
  {
    if ':' !in bind {
      CountNone(bind, ':');
    } else {
      CountAfterFirst(bind, ':');
      var rest := bind[IndexOf(bind, ':').value + 1..];
      if ':' !in rest {
        CountNone(rest, ':');
      } else {
        CountAfterFirst(rest, ':');
      }
    }
  }

  /** The two paths of a parsed bind hold no ':' and the three fields give
    * the string back. */
  lemma ParseMappingFields(bind: string)
    requires ParseMapping(bind).Ok?
    ensures var m := ParseMapping(bind).value;
            ':' !in m.pathOnHost && ':' !in m.pathInContainer &&
            bind == m.pathOnHost + ":" + m.pathInContainer + ":" + m.permission
  {
    var i := IndexOf(bind, ':').value;
    var rest := bind[i + 1..];
    var j := IndexOf(rest, ':').value;
    var h, c, p := bind[..i], rest[..j], rest[j + 1..];
    assert ParseMapping(bind).value == HostMapping(h, c, p);
    CutAt(bind, i);
    CutAt(rest, j);
    JoinThree(h, c, p, bind, rest);
  }

  /** Putting the cut pieces back together. */
  lemma JoinThree(h: string, c: string, p: string, bind: string, rest: string)
    requires bind == h + [':'] + rest && rest == c + [':'] + p
    ensures bind == h + ":" + c + ":" + p
  {
    assert ":" == [':'];
    assert h + [':'] + (c + [':'] + p) == h + ":" + c + ":" + p;
  }

  /** The text "host:container:option" parses back into its fields when the
    * two paths hold no ':'. */
  lemma ParseMappingOfFields(host: string, ctr: string, opt: string)
    requires ':' !in host && ':' !in ctr
    ensures ParseMapping(host + ":" + ctr + ":" + opt) == Ok(HostMapping(host, ctr, opt))
  {
    var s := host + ":" + ctr + ":" + opt;
    assert s == host + [':'] + (ctr + [':'] + opt);
    IndexOfAfter(host, ctr + [':'] + opt, ':');
    assert s[|host| + 1..] == ctr + [':'] + opt;
    IndexOfAfter(ctr, opt, ':');
    assert s[..|host|] == host;
    assert (ctr + [':'] + opt)[..|ctr|] == ctr;
    assert (ctr + [':'] + opt)[|ctr| + 1..] == opt;
  }

  /** `checkEuqal` as written: both option lists, with every space removed,
    * split on ',' into the same pieces in the same order. */
  predicate CheckEqual(a: string, b: string)
  {
    Split(RemoveChar(a, ' '), ',') == Split(RemoveChar(b, ' '), ',')
  }

  /** The same comparison without the split: the texts agree once every
    * space is removed.  The index below uses this form. */
  predicate SameOptions(a: string, b: string)
  {
    RemoveChar(a, ' ') == RemoveChar(b, ' ')
  }

  /** Comparing the split lists is comparing the texts without spaces, so the
    * order of the options matters. */
  lemma CheckEqualIsSpaceless(a: string, b: string)
    ensures CheckEqual(a, b) <==> SameOptions(a, b)
  {
    if CheckEqual(a, b) {
      SplitInjective(RemoveChar(a, ' '), RemoveChar(b, ' '), ',');
    }
  }

  /** Two different options in swapped order are not equal. */
  lemma CheckEqualOrdered(x: string, y: string)
    requires x != y
    requires ' ' !in x && ',' !in x && ' ' !in y && ',' !in y
    ensures !CheckEqual(x + "," + y, y + "," + x)
  {
    var a := x + "," + y;
    var b := y + "," + x;
    assert ' ' !in a && ' ' !in b;
    assert Join([x, y], ',') == a by { assert [x, y][1..] == [y]; }
    assert Join([y, x], ',') == b by { assert [y, x][1..] == [x]; }
    SplitJoin([x, y], ',');
    SplitJoin([y, x], ',');
  }

  // ---------------------------------------------------------------------
  // The index as a value

  datatype HostInfo = HostInfo(count: int, perm: string)

  /** `pathInHost` and the key set of `pathInContainer`. */
  datatype Index = Index(hosts: map<string, HostInfo>, ctrs: set<string>)

  const EmptyIndex := Index(map[], {})

  /** Every indexed host path is used by at least one bind. */
  predicate CountsPositive(ix: Index)
  {
    forall h :: h in ix.hosts ==> ix.hosts[h].count >= 1
  }

  /** The new index, the boolean result and the error of `add` / `remove`. */
  datatype Outcome = Outcome(index: Index, flag: bool, err: Option<string>)

  /** `bindsInfo.add`: the boolean says the host path was already in use. */
  function IndexAdd(ix: Index, bind: string): Outcome
  {
    match ParseMapping(bind)
    case Err(e) => Outcome(ix, false, Some("Wrong bind format: " + bind + ",err " + e))
    case Ok(mp) => AddMapping(ix, mp)
  }

  /** The part of `add` after parsing. */
  function AddMapping(ix: Index, mp: HostMapping): Outcome
  {
    if mp.pathInContainer in ix.ctrs then
      Outcome(ix, false, Some("Mount more than one host paths to a single path in container"))
    else
      var ctrs := ix.ctrs + {mp.pathInContainer};
      if mp.pathOnHost in ix.hosts then
        var info := ix.hosts[mp.pathOnHost];
        if !SameOptions(mp.permission, info.perm) then
          Outcome(Index(ix.hosts, ctrs), false,
                  Some("Mount one host path with different permissions, old: " + info.perm + ", new: " + mp.permission))
        else
          Outcome(Index(ix.hosts[mp.pathOnHost := info.(count := info.count + 1)], ctrs), true, None)
      else
        Outcome(Index(ix.hosts[mp.pathOnHost := HostInfo(1, mp.permission)], ctrs), false, None)
  }

  /** `bindsInfo.remove`: the boolean says the host path is no longer used
    * (or unknown). */
  function IndexRemove(ix: Index, bind: string): Outcome
  {
    match ParseMapping(bind)
    case Err(e) => Outcome(ix, true, Some("Wrong bind format: " + bind + ",err " + e))
    case Ok(mp) => RemoveMapping(ix, mp)
  }

  /** The part of `remove` after parsing. */
  function RemoveMapping(ix: Index, mp: HostMapping): Outcome
  {
    var ctrs := ix.ctrs - {mp.pathInContainer};
    if mp.pathOnHost in ix.hosts then
      var info := ix.hosts[mp.pathOnHost];
      if info.count - 1 <= 0 then
        Outcome(Index(ix.hosts - {mp.pathOnHost}, ctrs), true, None)
      else
        Outcome(Index(ix.hosts[mp.pathOnHost := info.(count := info.count - 1)], ctrs), false, None)
    else
      Outcome(Index(ix.hosts, ctrs), true, Some(mp.pathOnHost + " not in memory datebase"))
  }

  /** A malformed bind string is rejected and changes nothing. */
  lemma AddRejectsMalformed(ix: Index, bind: string)
    requires Count(bind, ':') < 2
    ensures IndexAdd(ix, bind).err.Some? && IndexAdd(ix, bind).index == ix
  {
    ParseMappingCount(bind);
  }

  /** A container path that is already taken is rejected and changes nothing. */
  lemma AddRejectsTakenContainerPath(ix: Index, host: string, ctr: string, opt: string)
    requires ':' !in host && ':' !in ctr
    requires ctr in ix.ctrs
    ensures var o := IndexAdd(ix, host + ":" + ctr + ":" + opt);
            o.err == Some("Mount more than one host paths to a single path in container") && o.index == ix
  {
    ParseMappingOfFields(host, ctr, opt);
  }

  /** On a permission mismatch the container path has already been taken:
    * it stays registered although the call fails; the host map is unchanged. */
  lemma AddMismatchKeepsContainerPath(ix: Index, host: string, ctr: string, opt: string)
    requires ':' !in host && ':' !in ctr
    requires ctr !in ix.ctrs && host in ix.hosts && !SameOptions(opt, ix.hosts[host].perm)
    ensures var o := IndexAdd(ix, host + ":" + ctr + ":" + opt);
            o.err.Some? && o.index == Index(ix.hosts, ix.ctrs + {ctr})
  {
    ParseMappingOfFields(host, ctr, opt);
  }

  /** A successful add registers the container path; a known host path has
    * its count raised by one and the result is true, a new one gets count 1
    * and the result is false. */
  lemma AddCounts(ix: Index, host: string, ctr: string, opt: string)
    requires ':' !in host && ':' !in ctr
    requires ctr !in ix.ctrs
    requires host in ix.hosts ==> SameOptions(opt, ix.hosts[host].perm)
    ensures var o := IndexAdd(ix, host + ":" + ctr + ":" + opt);
            o.err.None? && o.index.ctrs == ix.ctrs + {ctr} &&
            o.flag == (host in ix.hosts) &&
            o.index.hosts.Keys == ix.hosts.Keys + {host} &&
            o.index.hosts[host].count == (if host in ix.hosts then ix.hosts[host].count + 1 else 1) &&
            forall h :: h in ix.hosts && h != host ==> o.index.hosts[h] == ix.hosts[h]
  {
    ParseMappingOfFields(host, ctr, opt);
  }

  /** `remove` always frees the container path and lowers the host count; the
    * entry goes, and the result is true, exactly when the count reaches zero;
    * an unknown host path is reported with result true. */
  lemma RemoveCounts(ix: Index, host: string, ctr: string, opt: string)
    requires ':' !in host && ':' !in ctr
    ensures var o := IndexRemove(ix, host + ":" + ctr + ":" + opt);
            o.index.ctrs == ix.ctrs - {ctr} &&
            (host !in ix.hosts ==> o.flag && o.err == Some(host + " not in memory datebase") && o.index.hosts == ix.hosts) &&
            (host in ix.hosts ==>
               o.err.None? &&
               (o.flag <==> ix.hosts[host].count <= 1) &&
               (o.flag ==> o.index.hosts == ix.hosts - {host}) &&
               (!o.flag ==> o.index.hosts == ix.hosts[host := ix.hosts[host].(count := ix.hosts[host].count - 1)]))
  {
    ParseMappingOfFields(host, ctr, opt);
  }

  /** Neither operation ever leaves an indexed host path with a count below
    * one. */
  lemma CountsStayPositive(ix: Index, bind: string)
    requires CountsPositive(ix)
    ensures CountsPositive(IndexAdd(ix, bind).index)
    ensures CountsPositive(IndexRemove(ix, bind).index)
  {
    var mp := ParseMapping(bind);
    if mp.Ok? {
      AddMappingKeepsCounts(ix, mp.value);
      RemoveMappingKeepsCounts(ix, mp.value);
    }
  }

  lemma AddMappingKeepsCounts(ix: Index, mp: HostMapping)
    requires CountsPositive(ix)
    ensures CountsPositive(AddMapping(ix, mp).index)
  {
  }

  lemma RemoveMappingKeepsCounts(ix: Index, mp: HostMapping)
    requires CountsPositive(ix)
    ensures CountsPositive(RemoveMapping(ix, mp).index)
  {
  }

  // ---------------------------------------------------------------------
  // The index as the tool keeps it: two maps updated in place

  class BindsInfo {
    var pathInHost: map<string, HostInfo>
    var pathInContainer: set<string>

    function Snapshot(): Index
      reads this
    {
      Index(pathInHost, pathInContainer)
    }

    predicate Valid()
      reads this
    {
      CountsPositive(Snapshot())
    }

    constructor ()
      ensures Snapshot() == EmptyIndex && Valid()
    {
      pathInHost := map[];
      pathInContainer := {};
    }

    /** `bindsInfo.add`. */
    method Add(bind: string) returns (hostPathExist: bool, err: Option<string>)
      modifies this
      ensures Outcome(Snapshot(), hostPathExist, err) == IndexAdd(old(Snapshot()), bind)
      ensures old(Valid()) ==> Valid()
    {
      if Valid() {
        CountsStayPositive(Snapshot(), bind);
      }
      var mp := ParseMapping(bind);
      if mp.Err? {
        return false, Some("Wrong bind format: " + bind + ",err " + mp.msg);
      }
      hostPathExist, err := AddParsed(mp.value);
    }

    method AddParsed(m: HostMapping) returns (hostPathExist: bool, err: Option<string>)
      modifies this
      ensures Outcome(Snapshot(), hostPathExist, err) == AddMapping(old(Snapshot()), m)
    {
      hostPathExist := false;
      err := None;
      if m.pathInContainer in pathInContainer {
        err := Some("Mount more than one host paths to a single path in container");
        return;
      }
      pathInContainer := pathInContainer + {m.pathInContainer};
      if m.pathOnHost in pathInHost {
        var info := pathInHost[m.pathOnHost];
        if !SameOptions(m.permission, info.perm) {
          err := Some("Mount one host path with different permissions, old: " + info.perm + ", new: " + m.permission);
          return;
        }
        pathInHost := pathInHost[m.pathOnHost := info.(count := info.count + 1)];
        hostPathExist := true;
        return;
      }
      pathInHost := pathInHost[m.pathOnHost := HostInfo(1, m.permission)];
    }

    /** `bindsInfo.remove`. */
    method Remove(bind: string) returns (hostPathGone: bool, err: Option<string>)
      modifies this
      ensures Outcome(Snapshot(), hostPathGone, err) == IndexRemove(old(Snapshot()), bind)
      ensures old(Valid()) ==> Valid()
    {
      if Valid() {
        CountsStayPositive(Snapshot(), bind);
      }
      var mp := ParseMapping(bind);
      if mp.Err? {
        return true, Some("Wrong bind format: " + bind + ",err " + mp.msg);
      }
      hostPathGone, err := RemoveParsed(mp.value);
    }

    method RemoveParsed(m: HostMapping) returns (hostPathGone: bool, err: Option<string>)
      modifies this
      ensures Outcome(Snapshot(), hostPathGone, err) == RemoveMapping(old(Snapshot()), m)
    {
      // the container path is always released
      pathInContainer := pathInContainer - {m.pathInContainer};
      if m.pathOnHost in pathInHost {
        var info := pathInHost[m.pathOnHost].(count := pathInHost[m.pathOnHost].count - 1);
        if info.count <= 0 {
          pathInHost := pathInHost - {m.pathOnHost};
          return true, None;
        }
        pathInHost := pathInHost[m.pathOnHost := info];
        return false, None;
      }
      return true, Some(m.pathOnHost + " not in memory datebase");
    }
  }

  // ---------------------------------------------------------------------
  // Rebuilding the index from the stored bind strings

  /** Adding the stored binds one by one, failing at the first rejected one. */
  function Replay(binds: seq<string>): Result<Index>
    decreases |binds|
  {
    if |binds| == 0 then Ok(EmptyIndex)
    else
      match Replay(binds[..|binds| - 1])
      case Err(e) => Err(e)
      case Ok(ix) =>
        var o := IndexAdd(ix, binds[|binds| - 1]);
        if o.err.Some? then Err(o.err.value) else Ok(o.index)
  }

  predicate ReplayParsesAll(binds: seq<string>)
  {
    forall i :: 0 <= i < |binds| ==> ParseMapping(binds[i]).Ok?
  }

  /** The container path of a stored bind ("" if it does not parse). */
  function ContainerOf(bind: string): string
  {
    match ParseMapping(bind)
    case Ok(mp) => mp.pathInContainer
    case Err(_) => ""
  }

  /** The container paths of the binds, in order. */
  function ContainerPaths(binds: seq<string>): seq<string>
  {
    Map(binds, ContainerOf)
  }

  /** Number of binds (that parse) using host path `h`. */
  function HostUses(binds: seq<string>, h: string): nat
    decreases |binds|
  {
    if |binds| == 0 then 0
    else
      var last := ParseMapping(binds[|binds| - 1]);
      HostUses(binds[..|binds| - 1], h) + (if last.Ok? && last.value.pathOnHost == h then 1 else 0)
  }

  /** The index describes a list of stored binds: every bind parses, no two
    * share a container path, the taken container paths are exactly theirs,
    * and every host path in use is indexed with the number of binds using
    * it. */
  ghost predicate Describes(binds: seq<string>, ix: Index)
  {
    DescribesContainers(binds, ix) && DescribesHosts(binds, ix)
  }

  ghost predicate DescribesContainers(binds: seq<string>, ix: Index)
  {
    ReplayParsesAll(binds) &&
    Distinct(ContainerPaths(binds)) &&
    (forall c :: c in ix.ctrs <==> c in ContainerPaths(binds))
  }

  ghost predicate DescribesHosts(binds: seq<string>, ix: Index)
  {
    (forall h :: h in ix.hosts <==> HostUses(binds, h) > 0) &&
    (forall h :: h in ix.hosts ==> ix.hosts[h].count == HostUses(binds, h))
  }

  lemma AppendContainers(binds: seq<string>, ix: Index, s: string)
    requires DescribesContainers(binds, ix) && IndexAdd(ix, s).err.None?
    ensures DescribesContainers(binds + [s], IndexAdd(ix, s).index)
  {
    var b := binds + [s];
    assert forall i :: 0 <= i < |binds| ==> b[i] == binds[i];
    MapSnoc(binds, s, ContainerOf);
    DistinctSnoc(ContainerPaths(binds), ContainerOf(s));
  }

  lemma AppendHosts(binds: seq<string>, ix: Index, s: string)
    requires DescribesHosts(binds, ix) && IndexAdd(ix, s).err.None?
    ensures DescribesHosts(binds + [s], IndexAdd(ix, s).index)
  {
    var b := binds + [s];
    assert b[..|b| - 1] == binds;
    var mp := ParseMapping(s).value;
    forall h
      ensures HostUses(b, h) == HostUses(binds, h) + (if mp.pathOnHost == h then 1 else 0)
    {
    }
  }

  /** A successful `add` keeps the index describing the list with the bind
    * appended. */
  lemma DescribesAppend(binds: seq<string>, ix: Index, s: string)
    requires Describes(binds, ix) && IndexAdd(ix, s).err.None?
    ensures Describes(binds + [s], IndexAdd(ix, s).index)
  {
    AppendContainers(binds, ix, s);
    AppendHosts(binds, ix, s);
  }

  /** Rebuilding from the stored binds, when it succeeds, yields an index
    * that describes them. */
  lemma {:induction false} ReplayDescribes(binds: seq<string>)
    requires Replay(binds).Ok?
    ensures Describes(binds, Replay(binds).value)
    decreases |binds|
  {
    if |binds| > 0 {
      ReplayLast(binds);
      ReplayDescribes(binds[..|binds| - 1]);
      DescribesLast(binds, Replay(binds[..|binds| - 1]).value);
    }
  }

  /** `DescribesAppend` for a list given whole: adding its last bind to an
    * index of the others describes it. */
  lemma DescribesLast(binds: seq<string>, ix: Index)
    requires |binds| > 0 && Describes(binds[..|binds| - 1], ix) && IndexAdd(ix, binds[|binds| - 1]).err.None?
    ensures Describes(binds, IndexAdd(ix, binds[|binds| - 1]).index)
  {
    var init, last := binds[..|binds| - 1], binds[|binds| - 1];
    DescribesAppend(init, ix, last);
    TakeLast(binds);
  }

  /** A non-empty list is its prefix with the last element appended. */
  lemma TakeLast<T>(s: seq<T>)
    requires |s| > 0
    ensures s[..|s| - 1] + [s[|s| - 1]] == s
  {
  }

  /** A replay that succeeds is the replay of all but the last bind, with
    * the last one added. */
  lemma ReplayLast(binds: seq<string>)
    requires |binds| > 0 && Replay(binds).Ok?
    ensures var init := binds[..|binds| - 1];
            Replay(init).Ok? && IndexAdd(Replay(init).value, binds[|binds| - 1]).err.None? &&
            Replay(binds).value == IndexAdd(Replay(init).value, binds[|binds| - 1]).index
  {
  }

  lemma {:induction false} HostUsesConcat(a: seq<string>, b: seq<string>, h: string)
    ensures HostUses(a + b, h) == HostUses(a, h) + HostUses(b, h)
    decreases |b|
  {
    if |b| == 0 {
      assert a + b == a;
    } else {
      assert (a + b)[..|a + b| - 1] == a + b[..|b| - 1];
      HostUsesConcat(a, b[..|b| - 1], h);
    }
  }

  /** The part of a list before and after position `i`. */
  lemma SplitAround(binds: seq<string>, i: nat)
    requires i < |binds|
    ensures binds == binds[..i] + [binds[i]] + binds[i + 1..]
    ensures RemoveAt(binds, i) == binds[..i] + binds[i + 1..]
  {
  }

  /** Deleting position `i` of the stored binds deletes position `i` of
    * their container paths ... */
  lemma RemoveAtContainerPaths(binds: seq<string>, i: nat)
    requires ReplayParsesAll(binds) && i < |binds|
    ensures ReplayParsesAll(RemoveAt(binds, i))
    ensures ContainerPaths(RemoveAt(binds, i)) == RemoveAt(ContainerPaths(binds), i)
  {
    MapRemoveAt(binds, i, ContainerOf);
  }

  /** ... and one use of that bind's host path. */
  lemma RemoveAtHostUses(binds: seq<string>, i: nat, h: string)
    requires i < |binds|
    ensures HostUses(RemoveAt(binds, i), h) ==
              HostUses(binds, h) - (if ParseMapping(binds[i]).Ok? && ParseMapping(binds[i]).value.pathOnHost == h then 1 else 0)
  {
    var pre, post := binds[..i], binds[i + 1..];
    SplitAround(binds, i);
    HostUsesConcat(pre, [binds[i]], h);
    HostUsesConcat(pre + [binds[i]], post, h);
    HostUsesConcat(pre, post, h);
    assert [binds[i]][..0] == [];
  }

  lemma RemoveContainers(binds: seq<string>, ix: Index, i: nat, s: string)
    requires DescribesContainers(binds, ix) && i < |binds|
    requires ParseMapping(s).Ok? && ParseMapping(s).value.pathInContainer == ContainerOf(binds[i])
    ensures DescribesContainers(RemoveAt(binds, i), IndexRemove(ix, s).index)
  {
    RemoveAtContainerPaths(binds, i);
    DistinctRemoveAt(ContainerPaths(binds), i);
  }

  lemma RemoveHosts(binds: seq<string>, ix: Index, i: nat, s: string)
    requires DescribesHosts(binds, ix) && i < |binds| && ParseMapping(binds[i]).Ok?
    requires ParseMapping(s).Ok? && ParseMapping(s).value.pathOnHost == ParseMapping(binds[i]).value.pathOnHost
    ensures IndexRemove(ix, s).err.None?
    ensures DescribesHosts(RemoveAt(binds, i), IndexRemove(ix, s).index)
  {
    forall h {
      RemoveAtHostUses(binds, i, h);
    }
  }

  /** Deleting a stored bind, and removing from the index a bind string with
    * the same host and container path, keeps the index describing the
    * shortened list; the removal reports no error. */
  lemma DescribesRemoveAt(binds: seq<string>, ix: Index, i: nat, s: string)
    requires Describes(binds, ix) && i < |binds|
    requires ParseMapping(s).Ok?
    requires ParseMapping(s).value.pathOnHost == ParseMapping(binds[i]).value.pathOnHost
    requires ParseMapping(s).value.pathInContainer == ParseMapping(binds[i]).value.pathInContainer
    ensures IndexRemove(ix, s).err.None?
    ensures Describes(RemoveAt(binds, i), IndexRemove(ix, s).index)
  {
    RemoveContainers(binds, ix, i, s);
    RemoveHosts(binds, ix, i, s);
  }

  /** Removing a bind string that is not stored, but whose host path is in
    * use, still lowers that host path's count: the index no longer describes
    * the unchanged list. */
  lemma RemoveUnrecordedDesyncs(binds: seq<string>, ix: Index, s: string)
    requires Describes(binds, ix)
    requires ParseMapping(s).Ok? && ParseMapping(s).value.pathOnHost in ix.hosts
    ensures !Describes(binds, IndexRemove(ix, s).index)
  {
    var h := ParseMapping(s).value.pathOnHost;
    assert ix.hosts[h].count == HostUses(binds, h) > 0;
  }
}

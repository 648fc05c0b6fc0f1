// Mounting with propagation, and checking that a bind source sits on a
// mount whose propagation allows it (pkg/mount/mounter_linux.go).  The
// mount(2) calls are recorded, not performed: `fault` says which of them
// fail.  Option parsing belongs to Docker's mount package and is given as
// `parse`; the mount table and symlink resolution are inputs.
module Mounter {
  import opened Wrappers
  import opened Strs
  import opened Paths

  /** The mount(2) flags the decomposition looks at; every other flag the
    * option parser may produce travels as `OtherFlag`. */
  datatype MountFlag = RdOnly | Bind | Rec | Remount | Move | Slave | Shared | Unbindable | Private | OtherFlag(bit: nat)

  /** What `ParseOptions` makes of an option string: flags and the data
    * string of options it does not know. */
  datatype Parsed = Parsed(flags: set<MountFlag>, data: string)

  /** One mount(2) call. */
  datatype MountCall = MountCall(source: string, target: string, fstype: string, flags: set<MountFlag>, data: string)

  const Propagation: set<MountFlag> := {Slave, Shared, Unbindable, Private}

  /** The calls `Mount` makes when none of them fails: the mount without
    * propagation flags; then, for a read-only bind, a remount with every
    * flag; otherwise, when propagation was asked for, a propagation-only
    * call on the target. */
  function MountCalls(device: string, target: string, mType: string, p: Parsed): (calls: seq<MountCall>)
    ensures 1 <= |calls| <= 2
    ensures calls[0] == MountCall(device, target, mType, p.flags - Propagation, p.data)
    ensures calls[0].flags * Propagation == {}
    ensures {Bind, RdOnly} <= p.flags ==>
              |calls| == 2 && calls[1] == MountCall(device, target, mType, p.flags + {Remount}, p.data)
    ensures !({Bind, RdOnly} <= p.flags) && p.flags * Propagation != {} ==>
              |calls| == 2 && calls[1] == MountCall("none", target, "none", p.flags * Propagation, p.data)
    ensures !({Bind, RdOnly} <= p.flags) && p.flags * Propagation == {} ==> |calls| == 1
  {
    var first := MountCall(device, target, mType, p.flags - Propagation, p.data);
    if Bind in p.flags && RdOnly in p.flags then
      [first, MountCall(device, target, mType, p.flags + {Remount}, p.data)]
    else if p.flags * Propagation != {} then
      [first, MountCall("none", target, "none", p.flags * Propagation, p.data)]
    else
      [first]
  }

  /** `Mount`: the calls are made in order until one fails; its error is
    * returned and the calls after it are not made. */
  function Mount(device: string, target: string, mType: string, options: string,
                 parse: string -> Parsed, fault: MountCall -> Option<ErrText>): (r: (seq<MountCall>, Option<ErrText>))
    ensures var all := MountCalls(device, target, mType, parse(options));
            1 <= |r.0| <= |all| && r.0 == all[..|r.0|]
    ensures var all := MountCalls(device, target, mType, parse(options));
            r.1.None? <==> forall i :: 0 <= i < |all| ==> fault(all[i]).None?
    ensures r.1.Some? ==> r.1 == fault(r.0[|r.0| - 1])
    ensures forall i :: 0 <= i < |r.0| - 1 ==> fault(r.0[i]).None?
  {
    var all := MountCalls(device, target, mType, parse(options));
    if fault(all[0]).Some? then ([all[0]], fault(all[0]))
    else if |all| == 1 then (all, None)
    else (all, fault(all[1]))
  }

  /** A read-only bind never gets a propagation-only call: whatever
    * propagation it asks for only rides along on the remount. */
  lemma ReadOnlyBindNoPropagationCall(device: string, target: string, mType: string, p: Parsed)
    requires {Bind, RdOnly} <= p.flags
    ensures forall c :: c in MountCalls(device, target, mType, p) ==> Bind in c.flags
  {
    var calls := MountCalls(device, target, mType, p);
    assert Bind in calls[0].flags;
    assert Bind in calls[1].flags;
  }

  /** Every flag that was asked for reaches the kernel in some call, and
    * the first call carries every non-propagation flag. */
  lemma MountFlagsCovered(device: string, target: string, mType: string, p: Parsed)
    ensures forall f :: f in p.flags && f !in Propagation ==> f in MountCalls(device, target, mType, p)[0].flags
    ensures forall f :: f in p.flags ==> exists c :: c in MountCalls(device, target, mType, p) && f in c.flags
  {
    var calls := MountCalls(device, target, mType, p);
    forall f | f in p.flags
      ensures exists c :: c in calls && f in c.flags
    {
      if f in Propagation {
        assert f in p.flags * Propagation;
        if {Bind, RdOnly} <= p.flags {
          assert f in calls[1].flags;
        } else {
          assert f in calls[1].flags;
        }
      } else {
        assert f in calls[0].flags;
      }
    }
  }

  // ---------------------------------------------------------------------
  // Propagation of a bind source

  /** One line of the mount table: the mount point and its optional fields
    * ("shared:N", "master:N", ...), separated by spaces. */
  datatype MountInfo = MountInfo(mountpoint: string, optional: string)

  /** The nearest mount point at or above `path`, walking up with `Dir`. */
  function NearestMount(path: string, infos: seq<MountInfo>): (r: Option<MountInfo>)
    requires IsAbs(path)
    ensures r.Some? ==> r.value in infos
    decreases |path|
  {
    var i := FirstMountAt(infos, path);
    if i.Some? then Some(infos[i.value])
    else if path == "/" then None
    else
      DirProgress(path);
      NearestMount(Dir(path), infos)
  }

  /** The index of the first table line for mount point `path`. */
  function FirstMountAt(infos: seq<MountInfo>, path: string): (r: Option<nat>)
    ensures r.Some? ==> r.value < |infos| && infos[r.value].mountpoint == path &&
                        forall j :: 0 <= j < r.value ==> infos[j].mountpoint != path
    ensures r.None? ==> forall j :: 0 <= j < |infos| ==> infos[j].mountpoint != path
  {
    if |infos| == 0 then None
    else if infos[0].mountpoint == path then Some(0)
    else match FirstMountAt(infos[1..], path)
      case None => None
      case Some(k) => Some(k + 1)
  }

  /** `getSource`: the nearest mount point above the resolved path and its
    * optional fields.  `resolved` is the symlink-resolved path and `mounts`
    * the mount table, each `Err` when reading it failed.  The resolved path
    * of the bind sources the tools check is absolute; on a relative one the
    * walk would never end. */
  method GetSource(sourcePath: string, resolved: Result<string>, mounts: Result<seq<MountInfo>>) returns (r: Result<(string, string)>)
    requires resolved.Ok? ==> IsAbs(resolved.value)
    ensures resolved.Err? ==> r == Err(resolved.msg)
    ensures resolved.Ok? && mounts.Err? ==> r == Err(mounts.msg)
    ensures resolved.Ok? && mounts.Ok? ==>
              match NearestMount(resolved.value, mounts.value)
              case None => r == Err("Could not find mount " + sourcePath)
              case Some(m) => r == Ok((m.mountpoint, m.optional))
  {
    if resolved.Err? {
      return Err(resolved.msg);
    }
    if mounts.Err? {
      return Err(mounts.msg);
    }
    var infos := mounts.value;
    var path := resolved.value;
    while true
      invariant IsAbs(path)
      invariant NearestMount(path, infos) == NearestMount(resolved.value, infos)
      decreases |path|
    {
      var k := 0;
      while k < |infos|
        invariant 0 <= k <= |infos|
        invariant forall j :: 0 <= j < k ==> infos[j].mountpoint != path
      {
        if infos[k].mountpoint == path {
          assert FirstMountAt(infos, path) == Some(k);
          return Ok((path, infos[k].optional));
        }
        k := k + 1;
      }
      if path == "/" {
        return Err("Could not find mount " + sourcePath);
      }
      DirProgress(path);
      path := Dir(path);
    }
  }

  /** The first propagation tag among a mount's optional fields. */
  datatype Tag = SharedTag | MasterTag

  function FirstTag(fields: seq<string>): Option<Tag>
    decreases |fields|
  {
    if |fields| == 0 then None
    else if HasPrefix(fields[0], "shared:") then Some(SharedTag)
    else if HasPrefix(fields[0], "master:") then Some(MasterTag)
    else FirstTag(fields[1..])
  }

  /** No field before position `i` is a propagation tag. */
  predicate Untagged(fields: seq<string>, i: nat)
    requires i <= |fields|
  {
    forall j :: 0 <= j < i ==> !HasPrefix(fields[j], "shared:") && !HasPrefix(fields[j], "master:")
  }

  /** The mount is shared iff a "shared:" field comes before any tag, and
    * untagged iff no field is a tag. */
  lemma {:induction false} FirstTagMeaning(fields: seq<string>)
    ensures FirstTag(fields) == Some(SharedTag) <==>
              exists i :: 0 <= i < |fields| && HasPrefix(fields[i], "shared:") && Untagged(fields, i)
    ensures FirstTag(fields).None? <==> Untagged(fields, |fields|)
    decreases |fields|
  {
    if |fields| > 0 {
      var f0 := fields[0];
      if HasPrefix(f0, "shared:") {
        assert Untagged(fields, 0);
        assert !Untagged(fields, |fields|);
      } else if HasPrefix(f0, "master:") {
        assert !Untagged(fields, |fields|);
        assert !HasPrefix(f0, "shared:");
        forall i | 0 < i <= |fields|
          ensures !Untagged(fields, i)
        {
          assert !HasPrefix(fields[0], "master:") == false;
        }
      } else {
        var rest := fields[1..];
        FirstTagMeaning(rest);
        forall i | 0 <= i <= |rest|
          ensures Untagged(fields, i + 1) <==> Untagged(rest, i)
        {
          assert forall j :: 1 <= j < i + 1 ==> fields[j] == rest[j - 1];
        }
        if FirstTag(fields) == Some(SharedTag) {
          var i :| 0 <= i < |rest| && HasPrefix(rest[i], "shared:") && Untagged(rest, i);
          assert fields[i + 1] == rest[i];
          assert HasPrefix(fields[i + 1], "shared:") && Untagged(fields, i + 1);
        }
        if exists i :: 0 <= i < |fields| && HasPrefix(fields[i], "shared:") && Untagged(fields, i) {
          var i :| 0 <= i < |fields| && HasPrefix(fields[i], "shared:") && Untagged(fields, i);
          assert i > 0 && fields[i] == rest[i - 1];
          assert HasPrefix(rest[i - 1], "shared:") && Untagged(rest, i - 1);
        }
      }
    }
  }

  /** What `ValidMountPropagation` asks of the source mount, given the
    * option items and the mount found for the path. */
  function PropagationVerdict(path: string, items: seq<string>, source: Result<(string, string)>): (err: Option<string>)
    ensures "bind" !in items ==> err.None?
    ensures "bind" in items && source.Err? ==> err == Some(source.msg)
    ensures "bind" in items && source.Ok? && "shared" in items ==>
              (err.None? <==> FirstTag(Split(source.value.1, ' ')) == Some(SharedTag))
    ensures "bind" in items && source.Ok? && "slave" in items && "shared" !in items ==>
              (err.None? <==> FirstTag(Split(source.value.1, ' ')).Some?)
    ensures "bind" in items && source.Ok? && "slave" !in items && "shared" !in items ==> err.None?
  {
    if "bind" !in items then None
    else match source
      case Err(e) => Some(e)
      case Ok((src, options)) =>
        var tag := FirstTag(Split(options, ' '));
        if "shared" in items && tag != Some(SharedTag) then
          Some("Path " + path + " is mounted on " + src + " but it is not a shared mount")
        else if "slave" in items && tag.None? then
          Some("Path " + path + " is mounted on " + src + " but it is not a shared or slave mount")
        else None
  }

  /** `ValidMountPropagation`: only the exact items "bind", "shared" and
    * "slave" count; without "bind" the mount table is never consulted.
    * `source` is what `GetSource` answers for the path. */
  method ValidMountPropagation(path: string, mOpt: string, source: Result<(string, string)>) returns (err: Option<string>)
    ensures err == PropagationVerdict(path, Split(mOpt, ','), source)
  {
    var items := Split(mOpt, ',');
    var bind, shared, slave := PropagationItems(items);
    if !bind {
      return None;
    }
    if source.Err? {
      return Some(source.msg);
    }
    var (src, options) := source.value;
    var fields := Split(options, ' ');
    var sharedmnt, slavemnt := MountTags(fields);
    var tag := FirstTag(fields);
    if tag.Some? {
      assert tag.value.SharedTag? || tag.value.MasterTag?;
    }
    if shared && !sharedmnt {
      return Some("Path " + path + " is mounted on " + src + " but it is not a shared mount");
    }
    if slave && !sharedmnt && !slavemnt {
      return Some("Path " + path + " is mounted on " + src + " but it is not a shared or slave mount");
    }
    return None;
  }

  /** The option loop of `ValidMountPropagation`: which of the exact items
    * "bind", "shared" and "slave" occur. */
  method PropagationItems(items: seq<string>) returns (bind: bool, shared: bool, slave: bool)
    ensures bind <==> "bind" in items
    ensures shared <==> "shared" in items
    ensures slave <==> "slave" in items
  {
    bind, shared, slave := false, false, false;
    for i := 0 to |items|
      invariant bind <==> "bind" in items[..i]
      invariant shared <==> "shared" in items[..i]
      invariant slave <==> "slave" in items[..i]
    {
      assert items[..i + 1] == items[..i] + [items[i]];
      if items[i] == "bind" {
        bind := true;
      }
      if items[i] == "shared" {
        shared := true;
      }
      if items[i] == "slave" {
        slave := true;
      }
    }
    assert items[..|items|] == items;
  }

  /** The optional-field loop of `ValidMountPropagation`: the first
    * "shared:" or "master:" field decides. */
  method MountTags(fields: seq<string>) returns (sharedmnt: bool, slavemnt: bool)
    ensures sharedmnt <==> FirstTag(fields) == Some(SharedTag)
    ensures slavemnt <==> FirstTag(fields) == Some(MasterTag)
  {
    sharedmnt, slavemnt := false, false;
    var k := 0;
    while k < |fields|
      invariant 0 <= k <= |fields|
      invariant FirstTag(fields) == FirstTag(fields[k..])
    {
      if HasPrefix(fields[k], "shared:") {
        sharedmnt := true;
        break;
      }
      if HasPrefix(fields[k], "master:") {
        slavemnt := true;
        break;
      }
      assert fields[k..][1..] == fields[k + 1..];
      k := k + 1;
    }
  }

  /** The recursive variants are not the exact items the validation looks for:
    * "bind,rshared" and "bind,rslave" pass whatever the source mount is. */
  lemma RecursiveVariantsUnchecked(path: string, a: string, source: Result<(string, string)>)
    requires a == "rshared" || a == "rslave"
    ensures PropagationVerdict(path, ["bind", a], source) == (if source.Err? then Some(source.msg) else None)
  {
  }
}

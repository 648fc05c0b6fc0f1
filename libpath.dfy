// The path commands of libdevice/libdevice.go: `AddPath` records each bind
// in the hook configuration and, for a running container, prepares its
// transfer path and asks the namespace driver to mount it, stopping at the
// first failure; `RemovePath` takes each stored bind out again, reporting
// failures and going on.  The driver and the host's file system are inputs
// (`LibDevice.Env`); what was asked of them is logged as `LibDevice.Call`s.
module LibPath {
  import opened Wrappers
  import opened Strs
  import opened Seqs
  import opened DeviceTypes
  import opened BindIndex
  import opened ConfigDevice
  import opened HookConfig
  import opened LibDevice
  import Transfer

  /** The stored binds, the bind index, the dirty flag of the store, and the
    * errors and calls of a path command so far. */
  datatype PathRun = PathRun(binds: seq<string>, index: Index, dirty: bool, errs: seq<string>, calls: seq<Call>)

  /** A run after `UpdateBind`, with its boolean and its error. */
  datatype Updated = Updated(run: PathRun, flag: bool, err: Option<string>)

  /** A run and the error that ended it. */
  datatype Stepped = Stepped(run: PathRun, err: Option<string>)

  /** `addBind` on the values: the index is asked first; the string is
    * stored only when the index took it and no stored bind has its two
    * paths. */
  function AddBindTo(s: PathRun, b: Bind): Updated
  {
    var o := IndexAdd(s.index, BindToString(b));
    var binds := if o.err.None? && BindIndexInArray(s.binds, b).None? then s.binds + [BindToString(b)] else s.binds;
    Updated(s.(binds := binds, index := o.index, dirty := s.dirty || binds != s.binds), o.flag, o.err)
  }

  /** `removeBind` on the values: the index is asked first; the stored
    * string with the bind's two paths, if any, is dropped. */
  function RemoveBindFrom(s: PathRun, b: Bind): Updated
  {
    var o := IndexRemove(s.index, BindToString(b));
    var binds := match BindIndexInArray(s.binds, b)
                 case Some(i) => RemoveAt(s.binds, i)
                 case None => s.binds;
    Updated(s.(binds := binds, index := o.index, dirty := s.dirty || binds != s.binds), o.flag, o.err)
  }

  function Logged(s: PathRun, c: seq<Call>): PathRun
  {
    s.(calls := s.calls + c)
  }

  function Failed(s: PathRun, e: string): PathRun
  {
    s.(errs := s.errs + [e])
  }

  /** The run as the store and the index of `cfg` hold it. */
  function PathState(cfg: ContainerHookConfig, errs: seq<string>, calls: seq<Call>): PathRun
    reads cfg, cfg.bi
  {
    PathRun(cfg.binds, cfg.bi.Snapshot(), cfg.dirty, errs, calls)
  }

  /** `UpdateBind(b, true)` of the store, seen on the values. */
  method AddBindOne(cfg: ContainerHookConfig, b: Bind, errs: seq<string>, calls: seq<Call>)
    returns (flag: bool, err: Option<string>)
    modifies cfg, cfg.bi
    ensures var u := AddBindTo(old(PathState(cfg, errs, calls)), b);
            PathState(cfg, errs, calls) == u.run && flag == u.flag && err == u.err
    ensures cfg.Doc() == old(cfg.Doc()).(binds := cfg.binds)
  {
    flag, err := cfg.UpdateBind(b, true);
  }

  /** `UpdateBind(b, false)` of the store, seen on the values. */
  method RemoveBindOne(cfg: ContainerHookConfig, b: Bind, errs: seq<string>, calls: seq<Call>)
    returns (flag: bool, err: Option<string>)
    modifies cfg, cfg.bi
    ensures var u := RemoveBindFrom(old(PathState(cfg, errs, calls)), b);
            PathState(cfg, errs, calls) == u.run && flag == u.flag && err == u.err
    ensures cfg.Doc() == old(cfg.Doc()).(binds := cfg.binds)
  {
    flag, err := cfg.UpdateBind(b, false);
  }

  // ---------------------------------------------------------------------
  // AddPath

  /** Undoing a bind whose transfer path or mount failed: out of the store
    * again (as the marked bind), and its transfer path released when this
    * command created it. */
  function Unprepare(env: Env, s: PathRun, b: Bind, exist: bool): PathRun
  {
    var s1 := RemoveBindFrom(s, b).run;
    if exist then s1 else Logged(s1, HostCalls(Transfer.RemoveTransferPath(env.host, env.digest, env.containerID, b).steps))
  }

  /** One bind of `AddPath`: store it, then, for a running container,
    * `Mount` it.  A refused store ends the command. */
  function AddPathStep(env: Env, s: PathRun, b: Bind): Stepped
  {
    var u := AddBindTo(s, b);
    if u.err.Some? then Stepped(u.run, Some("AddPath: failed to UpdateBind, err: " + u.err.value))
    else if !env.running then Stepped(u.run, None)
    else Mount(env, u.run, Transfer.PrepareTransferPath(env.host, env.digest, env.source, "/", env.containerID, b, !u.flag), u.flag)
  }

  /** After the transfer path of a stored bind was prepared (`p`, which
    * mounts only when no stored bind used the host path before), ask the
    * driver to mount it; either failure is undone by `Unprepare` and ends
    * the command. */
  function Mount(env: Env, s: PathRun, p: Transfer.Prepared, exist: bool): Stepped
  {
    var s1 := Logged(s, HostCalls(p.steps));
    if p.err.Some? then
      Stepped(Unprepare(env, s1, p.bind, exist), Some("AddPath: failed to prepare transfer base, err: " + p.err.value))
    else
      var s2 := Logged(s1, [AddBindCall(p.bind)]);
      match env.driverAddBind(p.bind)
      case Some(e) => Stepped(Unprepare(env, s2, p.bind, exist), Some("AddPath: failed to add bind, err: " + e))
      case None => Stepped(s2, None)
  }

  /** The bind loop of `AddPath`, which returns at the first error. */
  function AddPaths(env: Env, s: PathRun, bs: seq<Bind>): Stepped
    decreases |bs|
  {
    if |bs| == 0 then Stepped(s, None)
    else
      var t := AddPathStep(env, s, bs[0]);
      if t.err.Some? then t else AddPaths(env, t.run, bs[1..])
  }

  /** `AddPath` from the point the store is loaded: a full store refuses
    * the command before any bind. */
  function AddPathSpec(env: Env, s: PathRun, bs: seq<Bind>): Stepped
  {
    match CheckPathNum(s.binds)
    case Some(e) => Stepped(s, Some(e))
    case None => AddPaths(env, s, bs)
  }

  /** A bind with neither path holding a ':' is stored as exactly its three
    * fields. */
  predicate PlainPaths(b: Bind)
  {
    ':' !in b.hostPath && ':' !in b.containerPath
  }

  /** Storing a bind the index accepts appends it and keeps the index
    * describing the store. */
  lemma AddBindAppends(s: PathRun, b: Bind)
    requires Describes(s.binds, s.index) && PlainPaths(b)
    requires AddBindTo(s, b).err.None?
    ensures var o := AddBindTo(s, b).run;
            o.binds == s.binds + [BindToString(b)] && Describes(o.binds, o.index)
  {
    if BindIndexInArray(s.binds, b).Some? {
      StoredBindBlocksAdd(s.binds, s.index, b);
    }
    DescribesAppend(s.binds, s.index, BindToString(b));
  }

  /** An accepted mapping, removed again under any permission, leaves the
    * index as it was. */
  lemma AddRemoveMapping(ix: Index, mp: HostMapping, perm: string)
    requires CountsPositive(ix) && AddMapping(ix, mp).err.None?
    ensures RemoveMapping(AddMapping(ix, mp).index, mp.(permission := perm)).index == ix
  {
    var h := mp.pathOnHost;
    var a := AddMapping(ix, mp).index;
    var r := RemoveMapping(a, mp.(permission := perm)).index;
    SetAddRemove(ix.ctrs, mp.pathInContainer);
    if h in ix.hosts {
      var info := ix.hosts[h];
      assert a.hosts == ix.hosts[h := info.(count := info.count + 1)];
      assert r.hosts == a.hosts[h := info];
      MapUpdateBack(ix.hosts, h, info.(count := info.count + 1));
    } else {
      assert r.hosts == a.hosts - {h};
      MapAddRemove(ix.hosts, h, HostInfo(1, mp.permission));
    }
  }

  lemma SetAddRemove<T>(s: set<T>, x: T)
    requires x !in s
    ensures s + {x} - {x} == s
  {
  }

  lemma MapUpdateBack<K, V>(m: map<K, V>, k: K, v: V)
    requires k in m
    ensures m[k := v][k := m[k]] == m
  {
  }

  lemma MapAddRemove<K, V>(m: map<K, V>, k: K, v: V)
    requires k !in m
    ensures m[k := v] - {k} == m
  {
  }

  /** The index after an accepted add, and the same bind (whatever its
    * options) removed again, is the index before. */
  lemma IndexAddRemove(ix: Index, b: Bind, opt: string)
    requires CountsPositive(ix) && PlainPaths(b)
    requires IndexAdd(ix, BindToString(b)).err.None?
    ensures IndexRemove(IndexAdd(ix, BindToString(b)).index, b.hostPath + ":" + b.containerPath + ":" + opt).index == ix
  {
    var mp := HostMapping(b.hostPath, b.containerPath, b.mountOption);
    ParseMappingOfFields(b.hostPath, b.containerPath, b.mountOption);
    ParseMappingOfFields(b.hostPath, b.containerPath, opt);
    AddRemoveMapping(ix, mp, opt);
  }

  /** A bind string appended to a list holding no bind with its paths is
    * the one any bind with those paths finds first. */
  lemma AppendedFoundLast(binds: seq<string>, b: Bind, m: Bind)
    requires PlainPaths(b) && BindIndexInArray(binds, b).None?
    requires m.hostPath == b.hostPath && m.containerPath == b.containerPath
    ensures BindIndexInArray(binds + [BindToString(b)], m) == Some(|binds|)
    ensures RemoveAt(binds + [BindToString(b)], |binds|) == binds
  {
    var a := binds + [BindToString(b)];
    ParseMappingOfFields(b.hostPath, b.containerPath, b.mountOption);
    assert BindMatches(m, a[|binds|]);
    forall j | 0 <= j < |binds|
      ensures !BindMatches(m, a[j])
    {
      assert a[j] == binds[j];
      assert !BindMatches(b, binds[j]);
    }
    assert a[..|binds|] == binds;
  }

  /** Undoing a bind that was just stored, by any bind with the same two
    * paths, restores the stored binds and the index exactly. */
  lemma UnstoreRestores(s: PathRun, b: Bind, m: Bind)
    requires Describes(s.binds, s.index) && CountsPositive(s.index) && PlainPaths(b)
    requires m.hostPath == b.hostPath && m.containerPath == b.containerPath
    requires AddBindTo(s, b).err.None?
    ensures var o := RemoveBindFrom(AddBindTo(s, b).run, m).run;
            o.binds == s.binds && o.index == s.index
  {
    assert BindIndexInArray(s.binds, b).None? by {
      if BindIndexInArray(s.binds, b).Some? {
        StoredBindBlocksAdd(s.binds, s.index, b);
      }
    }
    IndexAddRemove(s.index, b, m.mountOption);
    AppendedFoundLast(s.binds, b, m);
  }

  /** A bind of a running container whose transfer path or mount fails
    * leaves the stored binds and the index as they were before it, and
    * ends the command with an error. */
  lemma AddPathStepRollsBack(env: Env, s: PathRun, b: Bind)
    requires Describes(s.binds, s.index) && CountsPositive(s.index) && PlainPaths(b)
    requires env.running && AddBindTo(s, b).err.None?
    requires var t := AddPathStep(env, s, b); t.err.Some?
    ensures var t := AddPathStep(env, s, b);
            t.run.binds == s.binds && t.run.index == s.index
  {
    var u := AddBindTo(s, b);
    var p := Transfer.PrepareTransferPath(env.host, env.digest, env.source, "/", env.containerID, b, !u.flag);
    UnstoreRestores(s, b, p.bind);
    MountFails(env, u.run, p, u.flag);
  }

  /** A failed mount undoes the store of the marked bind. */
  lemma MountFails(env: Env, s: PathRun, p: Transfer.Prepared, exist: bool)
    requires Mount(env, s, p, exist).err.Some?
    ensures var t := Mount(env, s, p, exist).run;
            var r := RemoveBindFrom(s, p.bind).run;
            t.binds == r.binds && t.index == r.index
  {
    var s1 := Logged(s, HostCalls(p.steps));
    LoggedKeepsStore(s, HostCalls(p.steps), p.bind);
    if p.err.Some? {
      UnprepareKeepsStore(env, s1, p.bind, exist);
    } else {
      var s2 := Logged(s1, [AddBindCall(p.bind)]);
      LoggedKeepsStore(s1, [AddBindCall(p.bind)], p.bind);
      UnprepareKeepsStore(env, s2, p.bind, exist);
    }
  }

  /** Logging calls does not change what removing a bind does to the store. */
  lemma LoggedKeepsStore(s: PathRun, c: seq<Call>, b: Bind)
    ensures RemoveBindFrom(Logged(s, c), b).run.binds == RemoveBindFrom(s, b).run.binds
    ensures RemoveBindFrom(Logged(s, c), b).run.index == RemoveBindFrom(s, b).run.index
  {
  }

  /** `Unprepare` changes the store exactly as removing the bind does. */
  lemma UnprepareKeepsStore(env: Env, s: PathRun, b: Bind, exist: bool)
    ensures Unprepare(env, s, b, exist).binds == RemoveBindFrom(s, b).run.binds
    ensures Unprepare(env, s, b, exist).index == RemoveBindFrom(s, b).run.index
  {
  }

  /** A bind that goes through changed only what storing it changed, and
    * the log. */
  lemma AddPathStepOk(env: Env, s: PathRun, b: Bind)
    requires AddPathStep(env, s, b).err.None?
    ensures var t := AddPathStep(env, s, b);
            var u := AddBindTo(s, b);
            u.err.None? && t.run == u.run.(calls := t.run.calls)
  {
    var u := AddBindTo(s, b);
    if env.running && u.err.None? {
      MountOk(env, u.run, Transfer.PrepareTransferPath(env.host, env.digest, env.source, "/", env.containerID, b, !u.flag), u.flag);
    }
  }

  /** A mount that goes through only logs calls. */
  lemma MountOk(env: Env, s: PathRun, p: Transfer.Prepared, exist: bool)
    requires Mount(env, s, p, exist).err.None?
    ensures Mount(env, s, p, exist).run == s.(calls := Mount(env, s, p, exist).run.calls)
  {
  }

  /** A bind that goes through is appended to the store, and the index
    * keeps describing the store. */
  lemma AddPathStepStores(env: Env, s: PathRun, b: Bind)
    requires Describes(s.binds, s.index) && PlainPaths(b)
    requires AddPathStep(env, s, b).err.None?
    ensures var t := AddPathStep(env, s, b);
            t.run.binds == s.binds + [BindToString(b)] && Describes(t.run.binds, t.run.index)
  {
    AddPathStepOk(env, s, b);
    AddBindAppends(s, b);
    var t := AddPathStep(env, s, b);
    var u := AddBindTo(s, b);
    assert t.run.binds == u.run.binds && t.run.index == u.run.index;
  }

  /** A loop that goes through went through its first bind. */
  lemma AddPathsFirst(env: Env, s: PathRun, bs: seq<Bind>)
    requires |bs| > 0 && AddPaths(env, s, bs).err.None?
    ensures AddPathStep(env, s, bs[0]).err.None?
    ensures AddPaths(env, s, bs) == AddPaths(env, AddPathStep(env, s, bs[0]).run, bs[1..])
  {
  }

  /** When `AddPath` succeeds every bind of the batch has been appended, in
    * order, and the index describes the store. */
  lemma {:induction false} AddPathsStores(env: Env, s: PathRun, bs: seq<Bind>)
    requires Describes(s.binds, s.index)
    requires forall i :: 0 <= i < |bs| ==> PlainPaths(bs[i])
    requires AddPaths(env, s, bs).err.None?
    ensures var t := AddPaths(env, s, bs);
            t.run.binds == s.binds + Map(bs, BindToString) && Describes(t.run.binds, t.run.index)
    decreases |bs|
  {
    if |bs| > 0 {
      AddPathsFirst(env, s, bs);
      var t := AddPathStep(env, s, bs[0]);
      AddPathStepStores(env, s, bs[0]);
      assert forall i :: 0 <= i < |bs[1..]| ==> PlainPaths(bs[1..][i]) by {
        forall i | 0 <= i < |bs[1..]|
          ensures PlainPaths(bs[1..][i])
        {
          assert bs[1..][i] == bs[i + 1];
        }
      }
      AddPathsStores(env, t.run, bs[1..]);
      MapCons(bs, BindToString);
      Assoc(s.binds, [BindToString(bs[0])], Map(bs[1..], BindToString));
    }
  }

  /** `Unprepare` on the store. */
  method UnprepareOne(cfg: ContainerHookConfig, env: Env, b: Bind, exist: bool, errs: seq<string>, calls0: seq<Call>)
    returns (calls: seq<Call>)
    modifies cfg, cfg.bi
    ensures PathState(cfg, errs, calls) == Unprepare(env, old(PathState(cfg, errs, calls0)), b, exist)
    ensures cfg.Doc() == old(cfg.Doc()).(binds := cfg.binds)
  {
    var _, _ := RemoveBindOne(cfg, b, errs, calls0);
    calls := calls0;
    if !exist {
      calls := calls + HostCalls(Transfer.RemoveTransferPath(env.host, env.digest, env.containerID, b).steps);
    }
  }

  /** `Mount` on the store. */
  method MountOne(cfg: ContainerHookConfig, env: Env, p: Transfer.Prepared, exist: bool, calls0: seq<Call>)
    returns (calls: seq<Call>, err: Option<string>)
    modifies cfg, cfg.bi
    ensures var t := Mount(env, old(PathState(cfg, [], calls0)), p, exist);
            PathState(cfg, [], calls) == t.run && err == t.err
    ensures cfg.Doc() == old(cfg.Doc()).(binds := cfg.binds)
  {
    calls := calls0 + HostCalls(p.steps);
    if p.err.Some? {
      calls := UnprepareOne(cfg, env, p.bind, exist, [], calls);
      return calls, Some("AddPath: failed to prepare transfer base, err: " + p.err.value);
    }
    calls := calls + [AddBindCall(p.bind)];
    var de := env.driverAddBind(p.bind);
    if de.Some? {
      calls := UnprepareOne(cfg, env, p.bind, exist, [], calls);
      return calls, Some("AddPath: failed to add bind, err: " + de.value);
    }
    err := None;
  }

  /** One bind of `AddPath` on the store. */
  method AddPathOne(cfg: ContainerHookConfig, env: Env, b: Bind, calls0: seq<Call>)
    returns (calls: seq<Call>, err: Option<string>)
    modifies cfg, cfg.bi
    ensures var t := AddPathStep(env, old(PathState(cfg, [], calls0)), b);
            PathState(cfg, [], calls) == t.run && err == t.err
    ensures cfg.Doc() == old(cfg.Doc()).(binds := cfg.binds)
  {
    calls := calls0;
    var exist, e := AddBindOne(cfg, b, [], calls);
    if e.Some? {
      return calls, Some("AddPath: failed to UpdateBind, err: " + e.value);
    }
    if !env.running {
      return calls, None;
    }
    var p := Transfer.PrepareTransferPath(env.host, env.digest, env.source, "/", env.containerID, b, !exist);
    calls, err := MountOne(cfg, env, p, exist, calls);
  }

  /** `AddPath` from the point the store is loaded. */
  method AddPath(cfg: ContainerHookConfig, env: Env, bs: seq<Bind>)
    returns (err: Option<string>, calls: seq<Call>)
    modifies cfg, cfg.bi
    ensures var t := AddPathSpec(env, old(PathState(cfg, [], [])), bs);
            PathState(cfg, [], calls) == t.run && err == t.err
    ensures cfg.Doc() == old(cfg.Doc()).(binds := cfg.binds)
  {
    calls := [];
    err := CheckPathNum(cfg.binds);
    if err.Some? {
      return;
    }
    ghost var whole := AddPaths(env, PathState(cfg, [], []), bs);
    var i := 0;
    while i < |bs|
      invariant 0 <= i <= |bs|
      invariant whole == AddPaths(env, PathState(cfg, [], calls), bs[i..])
      invariant err.None?
      invariant cfg.Doc() == old(cfg.Doc()).(binds := cfg.binds)
    {
      assert bs[i..][1..] == bs[i + 1..];
      calls, err := AddPathOne(cfg, env, bs[i], calls);
      if err.Some? {
        return;
      }
      i := i + 1;
    }
  }

  // ---------------------------------------------------------------------
  // RemovePath

  /** For a running container: ask the driver to unmount the bind; when it
    * fails, report it and store the bind again, otherwise release the
    * transfer path if no stored bind uses the host path any more. */
  function Unmount(env: Env, s: PathRun, b: Bind, lastUse: bool): PathRun
  {
    var s1 := Logged(s, [RemoveBindCall(b)]);
    match env.driverRemoveBind(b)
    case Some(e) => AddBindTo(Failed(s1, "Failed to remove bind(" + BindVerbose(b) + "),error: " + e), b).run
    case None =>
      if lastUse then Logged(s1, HostCalls(Transfer.RemoveTransferPath(env.host, env.digest, env.containerID, b).steps))
      else s1
  }

  /** A stored bind, with its stored options, out of the store (a refusal
    * is reported and the removal goes on), then `Unmount` for a running
    * container. */
  function Unbind(env: Env, s: PathRun, b: Bind): PathRun
  {
    var u := RemoveBindFrom(s, b);
    var s1 := if u.err.Some? then Failed(u.run, "Failed to update bind(" + BindVerbose(b) + "), error: " + u.err.value + ", still try to remove it")
              else u.run;
    if env.running then Unmount(env, s1, b, u.flag) else s1
  }

  /** One bind of `RemovePath`: a bind that is not stored is reported;
    * otherwise it takes the stored options and is `Unbind`ed. */
  function RemovePathStep(env: Env, s: PathRun, b: Bind): PathRun
  {
    match GetBindInConfig(s.binds, b)
    case Err(e) => Failed(s, e)
    case Ok(mp) => Unbind(env, s, b.(mountOption := mp.permission))
  }

  /** The bind loop of `RemovePath`. */
  function RemovePaths(env: Env, s: PathRun, bs: seq<Bind>): PathRun
    decreases |bs|
  {
    if |bs| == 0 then s else RemovePathStep(env, RemovePaths(env, s, bs[..|bs| - 1]), bs[|bs| - 1])
  }

  /** `RemovePath` from the point the store is loaded: every bind is tried
    * and the errors are joined. */
  function RemovePathSpec(env: Env, s: PathRun, bs: seq<Bind>): (PathRun, Option<string>)
  {
    var r := RemovePaths(env, s, bs);
    (r, Aggregate(r.errs))
  }

  /** Binds with the same two paths find the same stored string. */
  lemma SamePathsSameIndex(binds: seq<string>, b: Bind, m: Bind)
    requires m.hostPath == b.hostPath && m.containerPath == b.containerPath
    ensures BindIndexInArray(binds, m) == BindIndexInArray(binds, b)
  {
    FirstIndexAgree(binds, MatchesBind(m), MatchesBind(b));
  }

  /** A bind that is not stored is reported and changes nothing else. */
  lemma RemovePathStepMissing(env: Env, s: PathRun, b: Bind)
    requires BindIndexInArray(s.binds, b).None?
    ensures RemovePathStep(env, s, b) == s.(errs := s.errs + ["fail to find bind: " + BindVerbose(b)])
  {
  }

  /** The store part of removing a stored bind: the string goes, the index
    * keeps describing the store, and nothing is reported. */
  lemma RemoveStoredBind(s: PathRun, b: Bind, m: Bind, i: nat)
    requires Describes(s.binds, s.index) && PlainPaths(b)
    requires m.hostPath == b.hostPath && m.containerPath == b.containerPath
    requires BindIndexInArray(s.binds, b) == Some(i)
    ensures var u := RemoveBindFrom(s, m);
            u.err.None? && u.run.binds == RemoveAt(s.binds, i) && Describes(u.run.binds, u.run.index) &&
            u.run.errs == s.errs && u.run.calls == s.calls
  {
    SamePathsSameIndex(s.binds, b, m);
    RemoveBindDescription(s.binds, s.index, m);
  }

  /** A stored bind whose unmount succeeds (or of a stopped container)
    * leaves the store without it, with the index describing the store and
    * nothing reported. */
  lemma RemovePathStepClean(env: Env, s: PathRun, b: Bind, i: nat)
    requires Describes(s.binds, s.index) && PlainPaths(b)
    requires BindIndexInArray(s.binds, b) == Some(i)
    requires var m := b.(mountOption := GetBindInConfig(s.binds, b).value.permission);
             env.running ==> env.driverRemoveBind(m).None?
    ensures var o := RemovePathStep(env, s, b);
            o.binds == RemoveAt(s.binds, i) && Describes(o.binds, o.index) && o.errs == s.errs
  {
    var m := b.(mountOption := GetBindInConfig(s.binds, b).value.permission);
    RemoveStoredBind(s, b, m, i);
    var u := RemoveBindFrom(s, m);
    assert RemovePathStep(env, s, b) == Unbind(env, s, m);
    if env.running {
      var o := Unmount(env, u.run, m, u.flag);
      assert o.binds == u.run.binds && o.index == u.run.index && o.errs == u.run.errs;
    }
  }

  /** A stored bind whose unmount fails is reported once and, when the
    * index takes it back, is stored again (at the end) with the index
    * describing the store. */
  lemma RemovePathStepDriverFails(env: Env, s: PathRun, b: Bind, i: nat)
    requires Describes(s.binds, s.index) && PlainPaths(b)
    requires BindIndexInArray(s.binds, b) == Some(i)
    requires var m := b.(mountOption := GetBindInConfig(s.binds, b).value.permission);
             env.running && env.driverRemoveBind(m).Some?
    ensures var m := b.(mountOption := GetBindInConfig(s.binds, b).value.permission);
            var o := RemovePathStep(env, s, b);
            |o.errs| == |s.errs| + 1 && o.calls == s.calls + [RemoveBindCall(m)] &&
            (IndexAdd(RemoveBindFrom(s, m).run.index, BindToString(m)).err.None? ==>
               o.binds == RemoveAt(s.binds, i) + [BindToString(m)] && Describes(o.binds, o.index))
  {
    var m := b.(mountOption := GetBindInConfig(s.binds, b).value.permission);
    RemoveStoredBind(s, b, m, i);
    var u := RemoveBindFrom(s, m);
    assert RemovePathStep(env, s, b) == Unbind(env, s, m);
    var f := Failed(Logged(u.run, [RemoveBindCall(m)]), "Failed to remove bind(" + BindVerbose(m) + "),error: " + env.driverRemoveBind(m).value);
    assert Unbind(env, s, m) == AddBindTo(f, m).run;
    if IndexAdd(u.run.index, BindToString(m)).err.None? {
      AddBindAppends(f, m);
    }
  }

  /** `Unmount` on the store. */
  method UnmountOne(cfg: ContainerHookConfig, env: Env, b: Bind, lastUse: bool, errs0: seq<string>, calls0: seq<Call>)
    returns (errs: seq<string>, calls: seq<Call>)
    modifies cfg, cfg.bi
    ensures PathState(cfg, errs, calls) == Unmount(env, old(PathState(cfg, errs0, calls0)), b, lastUse)
    ensures cfg.Doc() == old(cfg.Doc()).(binds := cfg.binds)
  {
    errs, calls := errs0, calls0 + [RemoveBindCall(b)];
    var de := env.driverRemoveBind(b);
    if de.Some? {
      errs := errs + ["Failed to remove bind(" + BindVerbose(b) + "),error: " + de.value];
      var _, _ := AddBindOne(cfg, b, errs, calls);
      return;
    }
    if lastUse {
      calls := calls + HostCalls(Transfer.RemoveTransferPath(env.host, env.digest, env.containerID, b).steps);
    }
  }

  /** One bind of `RemovePath` on the store. */
  method RemovePathOne(cfg: ContainerHookConfig, env: Env, b: Bind, errs0: seq<string>, calls0: seq<Call>)
    returns (errs: seq<string>, calls: seq<Call>)
    modifies cfg, cfg.bi
    ensures PathState(cfg, errs, calls) == RemovePathStep(env, old(PathState(cfg, errs0, calls0)), b)
    ensures cfg.Doc() == old(cfg.Doc()).(binds := cfg.binds)
  {
    errs, calls := errs0, calls0;
    var mp := GetBindInConfig(cfg.binds, b);
    if mp.Err? {
      errs := errs + [mp.msg];
      return;
    }
    var nb := b.(mountOption := mp.value.permission);
    var lastUse, e := RemoveBindOne(cfg, nb, errs, calls);
    if e.Some? {
      errs := errs + ["Failed to update bind(" + BindVerbose(nb) + "), error: " + e.value + ", still try to remove it"];
    }
    if env.running {
      errs, calls := UnmountOne(cfg, env, nb, lastUse, errs, calls);
    }
  }

  /** One more bind of the batch. */
  lemma RemovePathsSnoc(env: Env, s: PathRun, bs: seq<Bind>, i: nat)
    requires i < |bs|
    ensures RemovePaths(env, s, bs[..i + 1]) == RemovePathStep(env, RemovePaths(env, s, bs[..i]), bs[i])
  {
    assert bs[..i + 1][..i] == bs[..i];
  }

  /** `RemovePath` from the point the store is loaded. */
  method RemovePath(cfg: ContainerHookConfig, env: Env, bs: seq<Bind>)
    returns (err: Option<string>, calls: seq<Call>)
    modifies cfg, cfg.bi
    ensures var (o, e) := RemovePathSpec(env, old(PathState(cfg, [], [])), bs);
            PathState(cfg, o.errs, calls) == o && err == e
    ensures cfg.Doc() == old(cfg.Doc()).(binds := cfg.binds)
  {
    ghost var s0 := PathState(cfg, [], []);
    var errs: seq<string> := [];
    calls := [];
    var i := 0;
    while i < |bs|
      invariant 0 <= i <= |bs|
      invariant PathState(cfg, errs, calls) == RemovePaths(env, s0, bs[..i])
      invariant cfg.Doc() == old(cfg.Doc()).(binds := cfg.binds)
    {
      RemovePathsSnoc(env, s0, bs, i);
      errs, calls := RemovePathOne(cfg, env, bs[i], errs, calls);
      i := i + 1;
    }
    assert bs[..i] == bs;
    err := Aggregate(errs);
  }
}

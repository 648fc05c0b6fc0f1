// Adding, removing, updating and listing a container's network interfaces
// (libnetwork/interfaces.go).  The store entry is written first and the
// link is touched only for a running container; when the link operation
// fails the store change is undone.  The link operations themselves
// (create, join and configure, configure, delete) are parameters.
module LibNic {
  import opened Wrappers
  import opened Strs
  import opened Seqs
  import opened NetworkTypes
  import CN = ConfigNetwork
  import opened HookConfig
  import D = NicDriver

  /** The container and the link operations a driver performs. */
  datatype NicEnv = NicEnv(
    name: string,                         // ctr.Name()
    running: bool,                        // ctr.Pid() > 0 && ctr.CheckPidExist()
    netNs: string,                        // ctr.NetNsPath()
    parsers: D.Parsers,
    createIf: D.Nic -> Option<string>,
    joinAndConfigure: D.Nic -> Option<string>,
    configure: D.Nic -> Option<string>,
    deleteIf: D.Nic -> Option<string>)

  /** The options the callers hand to `drivers.New` for an interface; the
    * removal path passes no queue length. */
  function NicOptions(nsPath: string, c: InterfaceConf, withQlen: bool): seq<D.DriverOption>
  {
    [D.CtrNicNameOpt(c.ctrNicName), D.HostNicNameOpt(c.hostNicName), D.NsPathOpt(nsPath),
     D.IPOpt(c.ip), D.MacOpt(c.mac), D.MtuOpt(c.mtu)] +
    (if withQlen then [D.QlenOpt(c.qlen)] else []) +
    [D.BridgeOpt(c.bridge)]
  }

  /** `AddNicToContainer`: build the driver, create the interface, then move
    * it into the namespace and configure it; it succeeds exactly when all
    * three do. */
  function AddNicToContainer(env: NicEnv, c: InterfaceConf): (r: Option<string>)
    ensures var d := D.NewSpec(c.typ, NicOptions(env.netNs, c, true), env.parsers);
            r.None? <==> d.Ok? && env.createIf(d.value).None? && env.joinAndConfigure(d.value).None?
  {
    match D.NewSpec(c.typ, NicOptions(env.netNs, c, true), env.parsers)
    case Err(e) => Some(e)
    case Ok(d) =>
      if env.createIf(d).Some? then Some("failed to create interface: " + env.createIf(d).value)
      else env.joinAndConfigure(d)
  }

  /** `UpdateNicInContainer`: build the driver and configure the interface;
    * it succeeds exactly when both do. */
  function UpdateNicInContainer(env: NicEnv, c: InterfaceConf): (r: Option<string>)
    ensures var d := D.NewSpec(c.typ, NicOptions(env.netNs, c, true), env.parsers);
            r.None? <==> d.Ok? && env.configure(d.value).None?
  {
    match D.NewSpec(c.typ, NicOptions(env.netNs, c, true), env.parsers)
    case Err(e) => Some(e)
    case Ok(d) => env.configure(d)
  }

  /** `DelNicFromContainer`: build the driver without the queue length and
    * delete the interface; it succeeds exactly when both do. */
  function DelNicFromContainer(env: NicEnv, c: InterfaceConf): (r: Option<string>)
    ensures var d := D.NewSpec(c.typ, NicOptions(env.netNs, c, false), env.parsers);
            r.None? <==> d.Ok? && env.deleteIf(d.value).None?
  {
    match D.NewSpec(c.typ, NicOptions(env.netNs, c, false), env.parsers)
    case Err(e) => Some(e)
    case Ok(d) => env.deleteIf(d)
  }

  /** Building a driver for an interface succeeds only with an MTU of at
    * least 68, a non-negative queue length and a known type. */
  lemma {:induction false} DriverValidates(env: NicEnv, c: InterfaceConf)
    requires D.NewSpec(c.typ, NicOptions(env.netNs, c, true), env.parsers).Ok?
    ensures c.mtu >= D.MinMtu && c.qlen >= 0 && D.KindOf(c.typ).Ok?
  {
    var ops := NicOptions(env.netNs, c, true);
    D.NewOutcome(c.typ, ops, env.parsers);
    assert ops[5] == D.MtuOpt(c.mtu) && ops[6] == D.QlenOpt(c.qlen);
    assert D.OptionError(ops[5], env.parsers).None?;
    assert D.OptionError(ops[6], env.parsers).None?;
  }

  /** An interface reaches the container only with valid settings. */
  lemma ContainerOpsValidate(env: NicEnv, c: InterfaceConf)
    requires AddNicToContainer(env, c).None? || UpdateNicInContainer(env, c).None?
    ensures c.mtu >= D.MinMtu && c.qlen >= 0 && D.KindOf(c.typ).Ok?
  {
    DriverValidates(env, c);
  }

  /** Removal does not look at the queue length at all. */
  lemma DelIgnoresQlen(env: NicEnv, c: InterfaceConf, q: int)
    ensures DelNicFromContainer(env, c.(qlen := q)) == DelNicFromContainer(env, c)
  {
    assert NicOptions(env.netNs, c.(qlen := q), false) == NicOptions(env.netNs, c, false);
  }

  // ---------------------------------------------------------------------
  // The store invariant the add path keeps

  /** Every stored interface has a container name, and no two stored
    * interfaces clash. */
  predicate WellFormed(nics: seq<InterfaceConf>)
  {
    (forall i :: 0 <= i < |nics| ==> nics[i].ctrNicName != "") &&
    (forall i, j :: 0 <= i < |nics| && 0 <= j < |nics| && i != j ==> !NicsClash(nics[i], nics[j]))
  }

  /** In a well-formed store an entry's own record finds exactly that entry
    * when used as a removal filter. */
  lemma {:induction false} OwnRecordFindsItself(nics: seq<InterfaceConf>, k: nat)
    requires WellFormed(nics) && k < |nics|
    ensures CN.NicRemove(nics, nics[k]) == Some(k)
  {
    SameReflexive(nics[k], EmptyRoute);
    var r := CN.NicRemove(nics, nics[k]);
    if r.value < k {
      assert IsSameNic(nics[k], nics[r.value]);
      assert NicsClash(nics[k], nics[r.value]);
    }
  }

  /** Removing a stored entry by its own record and appending it again keeps
    * the store well formed and the same entries. */
  lemma RestoreKeepsWellFormed(nics: seq<InterfaceConf>, k: nat)
    requires WellFormed(nics) && k < |nics|
    ensures var t := RemoveAt(nics, k) + [nics[k]];
            WellFormed(t) && multiset(t) == multiset(nics)
  {
    var t := RemoveAt(nics, k) + [nics[k]];
    RemoveAtMultiset(nics, k);
    forall i, j | 0 <= i < |t| && 0 <= j < |t| && i != j
      ensures !NicsClash(t[i], t[j])
    {
      var oi := if i == |t| - 1 then k else if i < k then i else i + 1;
      var oj := if j == |t| - 1 then k else if j < k then j else j + 1;
      assert t[i] == nics[oi] && t[j] == nics[oj];
    }
    forall i | 0 <= i < |t|
      ensures t[i].ctrNicName != ""
    {
      var oi := if i == |t| - 1 then k else if i < k then i else i + 1;
      assert t[i] == nics[oi];
    }
  }

  /** An interface with a container name that clashes with nothing stored
    * can be appended without breaking the invariant, and removing it again
    * by its record gives the old store back. */
  lemma AppendUnclashed(nics: seq<InterfaceConf>, nic: InterfaceConf)
    requires WellFormed(nics) && nic.ctrNicName != ""
    requires CN.IsConflictInterface(nics, nic).None?
    ensures WellFormed(nics + [nic])
    ensures CN.UpdatedNics(nics + [nic], nic, false) == nics
  {
    var t := nics + [nic];
    forall i, j | 0 <= i < |t| && 0 <= j < |t| && i != j
      ensures !NicsClash(t[i], t[j])
    {
      if i == |nics| {
        assert !NicsClash(nic, nics[j]);
      } else if j == |nics| {
        assert !NicsClash(nic, nics[i]);
      }
    }
    OwnRecordFindsItself(t, |nics|);
    assert RemoveAt(t, |nics|) == nics;
  }

  // ---------------------------------------------------------------------
  // AddNic, DelNic, UpdateNic

  /** What an operation leaves in the store: the interface list, whether the
    * store was written to (so `dirty` is set), and the error. */
  datatype NicOutcome = NicOutcome(nics: seq<InterfaceConf>, touched: bool, err: Option<string>)

  /** `AddNic`: the cap and the conflicts are checked before anything is
    * written; the entry is recorded, and a failure to create the link in a
    * running container takes it out again. */
  function AddNicSpec(env: NicEnv, nics: seq<InterfaceConf>, nic: InterfaceConf, updateConfigOnly: bool): NicOutcome
  {
    if CN.CheckNicNum(nics).Some? then NicOutcome(nics, false, CN.CheckNicNum(nics))
    else if CN.IsConflictInterface(nics, nic).Some? then NicOutcome(nics, false, CN.IsConflictInterface(nics, nic))
    else
      var added := nics + [nic];
      var e := if !updateConfigOnly && env.running then AddNicToContainer(env, nic) else None;
      if e.Some? then NicOutcome(CN.UpdatedNics(added, nic, false), true, e)
      else NicOutcome(added, true, None)
  }

  /** A successful add appends the interface; a refused one leaves the store
    * as it was, and in a well-formed store a failed link creation does too.
    * The store stays well formed either way. */
  lemma AddNicEffect(env: NicEnv, nics: seq<InterfaceConf>, nic: InterfaceConf, updateConfigOnly: bool)
    requires WellFormed(nics) && nic.ctrNicName != ""
    ensures var o := AddNicSpec(env, nics, nic, updateConfigOnly);
            (o.err.None? ==> o.nics == nics + [nic]) &&
            (o.err.Some? ==> o.nics == nics) &&
            WellFormed(o.nics)
  {
    if CN.CheckNicNum(nics).None? && CN.IsConflictInterface(nics, nic).None? {
      AppendUnclashed(nics, nic);
    }
  }

  /** The message for an interface the store does not hold. */
  function NotExist(env: NicEnv, q: InterfaceConf): string
  {
    "Network interface " + q.hostNicName + "," + q.ctrNicName + " with type " + q.typ +
    " not exist in container " + env.name
  }

  /** Whether a link deletion error is one `DelNic` tolerates. */
  predicate HostLinkGone(e: string)
  {
    Contains(e, "failed to get host link by name")
  }

  /** `DelNic`: find the interface by its names, drop it from the store, and
    * for a running container delete the link; when that fails (other than
    * for a host link that is already gone) the entry is stored again, at the
    * end. */
  function DelNicSpec(env: NicEnv, nics: seq<InterfaceConf>, q: InterfaceConf): NicOutcome
  {
    match CN.FindInterfaceByName(nics, q)
    case None => NicOutcome(nics, false, Some(NotExist(env, q)))
    case Some(found) =>
      var removed := CN.UpdatedNics(nics, found, false);
      var e := if env.running then DelNicFromContainer(env, found) else None;
      if e.Some? && !HostLinkGone(e.value) then NicOutcome(removed + [found], true, e)
      else NicOutcome(removed, true, None)
  }

  /** In a well-formed store, `DelNic` takes out exactly the entry it found,
    * and a failed link deletion puts that same entry back at the end. */
  lemma DelNicEffect(env: NicEnv, nics: seq<InterfaceConf>, q: InterfaceConf)
    requires WellFormed(nics)
    ensures var o := DelNicSpec(env, nics, q);
            (CN.FindInterfaceByName(nics, q).None? ==> o.nics == nics && o.err.Some?) &&
            (CN.FindInterfaceByName(nics, q).Some? ==>
               exists k :: 0 <= k < |nics| && nics[k] == CN.FindInterfaceByName(nics, q).value &&
                           (o.err.None? ==> o.nics == RemoveAt(nics, k)) &&
                           (o.err.Some? ==> o.nics == RemoveAt(nics, k) + [nics[k]])) &&
            WellFormed(o.nics)
  {
    match CN.FindInterfaceByName(nics, q)
    case None =>
    case Some(found) =>
      var k :| 0 <= k < |nics| && nics[k] == found && CN.NameMatches(q, nics[k]);
      OwnRecordFindsItself(nics, k);
      assert CN.UpdatedNics(nics, found, false) == RemoveAt(nics, k);
      var o := DelNicSpec(env, nics, q);
      if o.err.Some? {
        RestoreKeepsWellFormed(nics, k);
        assert o.nics == RemoveAt(nics, k) + [nics[k]];
      } else {
        RemoveKeepsWellFormed(nics, k);
        assert o.nics == RemoveAt(nics, k);
      }
  }

  lemma RemoveKeepsWellFormed(nics: seq<InterfaceConf>, k: nat)
    requires WellFormed(nics) && k < |nics|
    ensures WellFormed(RemoveAt(nics, k))
  {
    var t := RemoveAt(nics, k);
    forall i, j | 0 <= i < |t| && 0 <= j < |t| && i != j
      ensures !NicsClash(t[i], t[j])
    {
      var oi := if i < k then i else i + 1;
      var oj := if j < k then j else j + 1;
      assert t[i] == nics[oi] && t[j] == nics[oj];
    }
    forall i | 0 <= i < |t|
      ensures t[i].ctrNicName != ""
    {
      assert t[i] == nics[if i < k then i else i + 1];
    }
  }

  /** `UpdateNic`'s merge: an empty IP, MAC or bridge, an MTU of 0 and a
    * negative queue length keep the stored value; the type and the host name
    * always come from the stored entry. */
  function Merge(req: InterfaceConf, stored: InterfaceConf): (r: InterfaceConf)
    ensures r.ctrNicName == req.ctrNicName && r.typ == stored.typ && r.hostNicName == stored.hostNicName
  {
    InterfaceConf(
      if req.ip == "" then stored.ip else req.ip,
      if req.mac == "" then stored.mac else req.mac,
      if req.mtu == 0 then stored.mtu else req.mtu,
      if req.qlen < 0 then stored.qlen else req.qlen,
      stored.typ,
      if req.bridge == "" then stored.bridge else req.bridge,
      stored.hostNicName,
      req.ctrNicName)
  }

  /** A request that sets nothing merges back into the stored entry. */
  lemma MergeNothing(req: InterfaceConf, stored: InterfaceConf)
    requires req.ip == "" && req.mac == "" && req.bridge == "" && req.mtu == 0 && req.qlen < 0
    requires req.ctrNicName == stored.ctrNicName
    ensures Merge(req, stored) == stored
  {
  }

  /** The outcome of `UpdateNic` and whether the store is flushed. */
  datatype UpdateOutcome = UpdateOutcome(nics: seq<InterfaceConf>, touched: bool, err: Option<string>, flush: bool)

  /** `UpdateNic`: find the interface by its container name, merge the
    * request into it, and unless an identical interface is already stored,
    * replace the entry by the merged one, provided it clashes with no other
    * entry and, for a running container, the link accepts the new settings.
    * A refusal stores the original entry again at the end.  Only the success
    * path flushes. */
  function UpdateNicSpec(env: NicEnv, nics: seq<InterfaceConf>, req: InterfaceConf, updateConfigOnly: bool): UpdateOutcome
  {
    match CN.FindInterfaceByName(nics, EmptyNic.(ctrNicName := req.ctrNicName))
    case None => UpdateOutcome(nics, false, Some(NotExist(env, req)), false)
    case Some(found) =>
      var merged := Merge(req, found);
      if CN.IsSameInterface(nics, merged) then UpdateOutcome(nics, false, None, false)
      else
        var removed := CN.UpdatedNics(nics, found, false);
        var conflict := CN.IsConflictInterface(removed, merged);
        var e := if conflict.Some? then conflict
                 else if !updateConfigOnly && env.running then UpdateNicInContainer(env, merged)
                 else None;
        if e.Some? then UpdateOutcome(removed + [found], true, e, false)
        else UpdateOutcome(removed + [merged], true, None, true)
  }

  /** The lookup by container name finds an entry with that name. */
  lemma FindByCtrName(nics: seq<InterfaceConf>, name: string)
    requires name != ""
    requires CN.FindInterfaceByName(nics, EmptyNic.(ctrNicName := name)).Some?
    ensures CN.FindInterfaceByName(nics, EmptyNic.(ctrNicName := name)).value.ctrNicName == name
  {
  }

  /** A request that sets nothing changes nothing and flushes nothing. */
  lemma UpdateNothing(env: NicEnv, nics: seq<InterfaceConf>, req: InterfaceConf, updateConfigOnly: bool)
    requires req.ip == "" && req.mac == "" && req.bridge == "" && req.mtu == 0 && req.qlen < 0
    ensures var o := UpdateNicSpec(env, nics, req, updateConfigOnly);
            o.nics == nics && !o.touched && !o.flush
  {
    var q := EmptyNic.(ctrNicName := req.ctrNicName);
    match CN.FindInterfaceByName(nics, q)
    case None =>
    case Some(found) =>
      if req.ctrNicName != "" {
        FindByCtrName(nics, req.ctrNicName);
      }
      var k :| 0 <= k < |nics| && nics[k] == found && CN.NameMatches(q, nics[k]);
      assert IsSameNic(Merge(req, found), nics[k]);
  }

  /** In a well-formed store, a successful update replaces the found entry by
    * the merged one at the end and flushes; a refused one moves the original
    * entry to the end and does not flush.  The store stays well formed. */
  lemma UpdateNicEffect(env: NicEnv, nics: seq<InterfaceConf>, req: InterfaceConf, updateConfigOnly: bool)
    requires WellFormed(nics) && req.ctrNicName != ""
    ensures var o := UpdateNicSpec(env, nics, req, updateConfigOnly);
            (o.flush <==> o.touched && o.err.None?) &&
            (o.touched ==>
               exists k :: 0 <= k < |nics| && nics[k].ctrNicName == req.ctrNicName &&
                           (o.err.None? ==> o.nics == RemoveAt(nics, k) + [Merge(req, nics[k])]) &&
                           (o.err.Some? ==> o.nics == RemoveAt(nics, k) + [nics[k]])) &&
            (!o.touched ==> o.nics == nics) &&
            WellFormed(o.nics)
  {
    var q := EmptyNic.(ctrNicName := req.ctrNicName);
    match CN.FindInterfaceByName(nics, q)
    case None =>
    case Some(found) =>
      FindByCtrName(nics, req.ctrNicName);
      var k :| 0 <= k < |nics| && nics[k] == found && CN.NameMatches(q, nics[k]);
      var merged := Merge(req, found);
      if !CN.IsSameInterface(nics, merged) {
        OwnRecordFindsItself(nics, k);
        assert CN.UpdatedNics(nics, found, false) == RemoveAt(nics, k);
        var o := UpdateNicSpec(env, nics, req, updateConfigOnly);
        RemoveKeepsWellFormed(nics, k);
        if o.err.Some? {
          RestoreKeepsWellFormed(nics, k);
          assert o.nics == RemoveAt(nics, k) + [nics[k]];
        } else {
          AppendUnclashed(RemoveAt(nics, k), merged);
          assert o.nics == RemoveAt(nics, k) + [Merge(req, nics[k])];
        }
      }
  }

  // ---------------------------------------------------------------------
  // The operations on the store

  /** What the lookup finds is stored, so removing it by its record takes
    * an entry out. */
  lemma FoundIsStored(nics: seq<InterfaceConf>, q: InterfaceConf)
    requires CN.FindInterfaceByName(nics, q).Some?
    ensures CN.IsSameInterface(nics, CN.FindInterfaceByName(nics, q).value)
  {
    var found := CN.FindInterfaceByName(nics, q).value;
    var k :| 0 <= k < |nics| && nics[k] == found;
    SameReflexive(found, EmptyRoute);
    assert IsSameNic(found, nics[k]);
  }

  /** `AddNic`. */
  method AddNic(cfg: ContainerHookConfig, env: NicEnv, nic: InterfaceConf, updateConfigOnly: bool)
    returns (err: Option<string>)
    modifies cfg
    ensures var o := AddNicSpec(env, old(cfg.nics), nic, updateConfigOnly);
            cfg.Doc() == old(cfg.Doc()).(nics := o.nics) && cfg.dirty == (old(cfg.dirty) || o.touched) &&
            err == o.err
  {
    err := CN.CheckNicNum(cfg.nics);
    if err.Some? {
      return;
    }
    err := CN.IsConflictInterface(cfg.nics, nic);
    if err.Some? {
      return;
    }
    var _ := cfg.UpdateNetworkInterface(nic, true);
    if !updateConfigOnly && env.running {
      err := AddNicToContainer(env, nic);
      if err.Some? {
        var _ := cfg.UpdateNetworkInterface(nic, false);
        return;
      }
    }
  }

  /** `DelNic`. */
  method DelNic(cfg: ContainerHookConfig, env: NicEnv, q: InterfaceConf) returns (err: Option<string>)
    modifies cfg
    ensures var o := DelNicSpec(env, old(cfg.nics), q);
            cfg.Doc() == old(cfg.Doc()).(nics := o.nics) && cfg.dirty == (old(cfg.dirty) || o.touched) &&
            err == o.err
  {
    var found := CN.FindInterfaceByName(cfg.nics, q);
    if found.None? {
      return Some(NotExist(env, q));
    }
    FoundIsStored(cfg.nics, q);
    var _ := cfg.UpdateNetworkInterface(found.value, false);
    err := None;
    if env.running {
      var e := DelNicFromContainer(env, found.value);
      if e.Some? && !HostLinkGone(e.value) {
        var _ := cfg.UpdateNetworkInterface(found.value, true);
        err := e;
      }
    }
  }

  /** `UpdateNic`: the error and whether the store is flushed. */
  method UpdateNic(cfg: ContainerHookConfig, env: NicEnv, req: InterfaceConf, updateConfigOnly: bool)
    returns (err: Option<string>, flush: bool)
    modifies cfg
    ensures var o := UpdateNicSpec(env, old(cfg.nics), req, updateConfigOnly);
            cfg.Doc() == old(cfg.Doc()).(nics := o.nics) && cfg.dirty == (old(cfg.dirty) || o.touched) &&
            err == o.err && flush == o.flush
  {
    var found := CN.FindInterfaceByName(cfg.nics, EmptyNic.(ctrNicName := req.ctrNicName));
    if found.None? {
      return Some(NotExist(env, req)), false;
    }
    var merged := Merge(req, found.value);
    if CN.IsSameInterface(cfg.nics, merged) {
      return None, false;
    }
    FoundIsStored(cfg.nics, EmptyNic.(ctrNicName := req.ctrNicName));
    var _ := cfg.UpdateNetworkInterface(found.value, false);
    err := CN.IsConflictInterface(cfg.nics, merged);
    if err.None? && !updateConfigOnly && env.running {
      err := UpdateNicInContainer(env, merged);
    }
    if err.Some? {
      var _ := cfg.UpdateNetworkInterface(found.value, true);
      return err, false;
    }
    var _ := cfg.UpdateNetworkInterface(merged, true);
    return None, true;
  }

  /** `ListNic`: the stored interfaces the filter matches, in stored order. */
  method ListNic(cfg: ContainerHookConfig, filter: InterfaceConf) returns (r: seq<InterfaceConf>)
    ensures forall i :: 0 <= i < |r| ==> IsSameNic(filter, r[i]) && r[i] in cfg.nics
    ensures forall i :: 0 <= i < |cfg.nics| && IsSameNic(filter, cfg.nics[i]) ==> cfg.nics[i] in r
  {
    r := CN.GetNics(cfg.nics, filter);
  }
}

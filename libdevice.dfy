// The device and path commands (libdevice/libdevice.go): each walks a batch
// of devices or binds, records it in the hook configuration, keeps the udev
// rules in step and, for a running container, asks the namespace driver and
// the cgroup writer to apply it, undoing the configuration change when a
// later step fails.  The driver, the cgroup files, lsblk and the host's file
// system are inputs (`Env`); what was asked of them is logged as `Call`s.
module LibDevice {
  import opened Wrappers
  import opened Strs
  import opened Seqs
  import opened DeviceTypes
  import opened BindIndex
  import opened ConfigDevice
  import opened HookConfig
  import opened UdevRules
  import opened UdevController
  import OciSpec
  import UtilsHooks
  import Transfer

  // ---------------------------------------------------------------------
  // Checks and listings

  /** The devices a QoS option may refer to: those of the batch, or every
    * stored device when the batch is empty. */
  function CheckedDevices(stored: seq<DeviceMapping>, devs: seq<Device>): seq<Device>
  {
    if |devs| == 0 then Map(stored, ToDevice) else devs
  }

  /** The options `checkDevice` checks, in its order: read bps, write bps,
    * read iops, write iops.  Blkio weights are not among them. */
  function ThrottleOptions(opts: AddDeviceOptions): seq<Qos>
  {
    opts.readBps + opts.writeBps + opts.readIOPS + opts.writeIOPS
  }

  predicate HasNumbers(devs: seq<Device>, q: Qos)
  {
    exists i :: 0 <= i < |devs| && devs[i].major == q.major && devs[i].minor == q.minor
  }

  /** `checkDevice`: every throttle option must name the numbers of a
    * device of the batch (of the store, for an empty batch); the first that
    * does not is reported by its path. */
  function CheckDevice(stored: seq<DeviceMapping>, devs: seq<Device>, opts: AddDeviceOptions): (r: Option<string>)
    ensures r.None? <==> forall q :: q in ThrottleOptions(opts) ==> HasNumbers(CheckedDevices(stored, devs), q)
    ensures r.Some? ==> exists q :: q in ThrottleOptions(opts) && !HasNumbers(CheckedDevices(stored, devs), q) &&
                                    r.value == "device " + q.path + " was not added to container or not in add-device args"
  {
    var all := CheckedDevices(stored, devs);
    var qs := ThrottleOptions(opts);
    match FirstIndex(qs, q => !HasNumbers(all, q))
    case None => None
    case Some(i) =>
      assert qs[i] in qs;
      Some("device " + qs[i].path + " was not added to container or not in add-device args")
  }

  /** `UpdateDeviceOwner`: with a user namespace, the device is owned by the
    * host IDs of container root; an ID without a mapping is left as it
    * was. */
  function UpdateDeviceOwner(spec: Option<OciSpec.Spec>, d: Device): (r: Device)
    ensures r.(uid := d.uid, gid := d.gid) == d
    ensures spec.None? || !UtilsHooks.HasUserNamespace(spec.value) ==> r == d
    ensures spec.Some? && UtilsHooks.HasUserNamespace(spec.value) ==>
              var ms := spec.value.uidMappings;
              (r.uid == d.uid || exists i :: 0 <= i < |ms| && UtilsHooks.InRange(0, ms[i])) &&
              ((exists i :: 0 <= i < |ms| && UtilsHooks.InRange(0, ms[i])) ==> 0 <= r.uid < UtilsHooks.Uint32)
    ensures spec.Some? && UtilsHooks.HasUserNamespace(spec.value) ==>
              var ms := spec.value.gidMappings;
              (r.gid == d.gid || exists i :: 0 <= i < |ms| && UtilsHooks.InRange(0, ms[i])) &&
              ((exists i :: 0 <= i < |ms| && UtilsHooks.InRange(0, ms[i])) ==> 0 <= r.gid < UtilsHooks.Uint32)
  {
    match spec
    case None => d
    case Some(s) =>
      var (uid, gid) := UtilsHooks.GetUIDGid(s);
      d.(uid := if uid != -1 then uid else d.uid, gid := if gid != -1 then gid else d.gid)
  }

  /** Every device of the batch after `UpdateDeviceOwner`. */
  function OwnedDevices(spec: Option<OciSpec.Spec>, devs: seq<Device>): seq<Device>
  {
    Map(devs, d => UpdateDeviceOwner(spec, d))
  }

  /** `ListDevice`: every stored device, and those that are not a partition
    * of another (whole disks and character devices). */
  function ListDevice(devs: seq<DeviceMapping>): (r: (seq<DeviceMapping>, seq<DeviceMapping>))
    ensures r.0 == devs
    ensures forall m :: m in r.1 <==> m in devs && m.parent == ""
    ensures |r.1| <= |devs|
  {
    (devs, Filter(devs, (m: DeviceMapping) => m.parent == ""))
  }

  // ---------------------------------------------------------------------
  // The error of a batch

  const Brackets: set<char> := {'[', ']'}

  /** `errors.New(strings.Trim(fmt.Sprint(retErr), "[]"))`, or nil for no
    * errors: the messages separated by spaces, with every bracket at
    * either end cut away. */
  function Aggregate(errs: seq<string>): (r: Option<string>)
    ensures r.None? <==> |errs| == 0
  {
    if |errs| == 0 then None else Some(Trim("[" + Join(errs, ' ') + "]", Brackets))
  }

  /** When the joined messages neither start nor end with a bracket, the
    * error is exactly the messages separated by spaces. */
  lemma AggregateText(errs: seq<string>)
    requires |errs| > 0
    requires var j := Join(errs, ' '); |j| > 0 && j[0] !in Brackets && j[|j| - 1] !in Brackets
    ensures Aggregate(errs) == Some(Join(errs, ' '))
  {
    var j := Join(errs, ' ');
    var s := "[" + j + "]";
    assert s[0] == '[' && s[1] == j[0];
    TrimLeftOne(s, Brackets);
    var t := j + "]";
    assert s[1..] == t;
    assert t[|t| - 1] in Brackets;
    assert t[..|t| - 1] == j;
    TrimRightStop(j, Brackets);
  }

  // ---------------------------------------------------------------------
  // What the command talks to

  /** The answers of everything outside the configuration and the udev
    * rules. */
  datatype Env = Env(
    running: bool,                                // c.Pid() > 0 && c.CheckPidExist()
    containerID: string,
    devType: string -> Result<string>,            // types.GetDeviceType (lsblk)
    driverAddDevice: (Device, bool) -> Option<string>,
    driverRemoveDevice: Device -> Option<string>,
    cgroup: (Device, bool) -> Option<string>,     // UpdateCgroupPermission, allow or deny
    qosWrite: (QosType, string) -> Option<string>,  // the blkio file of the kind
    cfq: Qos -> Result<bool>,                     // GetCfqAbility
    driverAddBind: Bind -> Option<string>,
    driverRemoveBind: Bind -> Option<string>,
    host: Transfer.HostOps,
    digest: string -> string,                     // hex SHA-256
    source: string -> Result<(string, string)>)   // GetSource

  /** What was asked of the driver, the cgroup files and the host, in
    * order. */
  datatype Call =
    | AddDeviceCall(device: Device, force: bool)
    | RemoveDeviceCall(device: Device)
    | CgroupCall(device: Device, allow: bool)
    | QosCall(kind: QosType, line: string)
    | AddBindCall(bind: Bind)
    | RemoveBindCall(bind: Bind)
    | HostCall(step: Transfer.HostStep)

  function HostCalls(steps: seq<Transfer.HostStep>): seq<Call>
  {
    Map(steps, (s: Transfer.HostStep) => HostCall(s))
  }

  // ---------------------------------------------------------------------
  // QoS: updateQos and removeQos

  /** The configuration and the calls while QoS values are written. */
  datatype QosRun = QosRun(doc: HookDoc, dirty: bool, calls: seq<Call>, err: Option<string>)

  /** Weights are written only to devices whose scheduler is CFQ. */
  predicate QosApplies(env: Env, t: QosType, q: Qos)
  {
    t != BlkioWeight || env.cfq(q) == Ok(true)
  }

  /** One entry: write the blkio file, then upsert the entry into the
    * configuration. */
  function QosStep(env: Env, s: QosRun, t: QosType, q: Qos): QosRun
  {
    if !QosApplies(env, t, q) then s
    else
      var calls := s.calls + [QosCall(t, QosString(q))];
      match env.qosWrite(t, QosString(q))
      case Some(e) => s.(calls := calls, err := Some(e))
      case None =>
        var e := QosUpsert(QosOf(s.doc, t), q);
        QosRun(WithQos(s.doc, t, e.list), s.dirty || e.changed, calls, None)
  }

  /** The loop over the entries of one kind, stopping at the first error. */
  function QosLoop(env: Env, s: QosRun, t: QosType, l: seq<Qos>): QosRun
    decreases |l|
  {
    if |l| == 0 then s
    else
      var p := QosLoop(env, s, t, l[..|l| - 1]);
      if p.err.Some? then p else QosStep(env, p, t, l[|l| - 1])
  }

  /** `updateQos`: read iops, write iops, read bps, write bps, then
    * weights, stopping at the first error. */
  function UpdateQosSpec(env: Env, s: QosRun, opts: AddDeviceOptions): QosRun
  {
    var s1 := QosLoop(env, s, ReadIOPS, opts.readIOPS);
    var s2 := QosLoop(env, s1, WriteIOPS, opts.writeIOPS);
    var s3 := QosLoop(env, s2, ReadBps, opts.readBps);
    var s4 := QosLoop(env, s3, WriteBps, opts.writeBps);
    QosLoop(env, s4, BlkioWeight, opts.blkioWeight)
  }

  /** Once an error is recorded nothing more happens. */
  lemma {:induction false} QosLoopStopped(env: Env, s: QosRun, t: QosType, l: seq<Qos>)
    requires s.err.Some?
    ensures QosLoop(env, s, t, l) == s
    decreases |l|
  {
    if |l| > 0 {
      QosLoopStopped(env, s, t, l[..|l| - 1]);
    }
  }

  /** One more entry of the loop. */
  lemma QosLoopSnoc(env: Env, s: QosRun, t: QosType, l: seq<Qos>, i: nat)
    requires i < |l|
    ensures var p := QosLoop(env, s, t, l[..i]);
            QosLoop(env, s, t, l[..i + 1]) == if p.err.Some? then p else QosStep(env, p, t, l[i])
  {
    assert l[..i + 1][..i] == l[..i];
  }

  /** A prefix that ends in an error is the whole loop. */
  lemma {:induction false} QosLoopStopsAt(env: Env, s: QosRun, t: QosType, l: seq<Qos>, n: nat)
    requires n <= |l| && QosLoop(env, s, t, l[..n]).err.Some?
    ensures QosLoop(env, s, t, l) == QosLoop(env, s, t, l[..n])
    decreases |l| - n
  {
    if n < |l| {
      assert l[..n + 1][..n] == l[..n];
      QosLoopStopsAt(env, s, t, l, n + 1);
    } else {
      assert l[..n] == l;
    }
  }

  /** Upserting an entry leaves the value of other device numbers as it
    * was. */
  lemma LookupKeptByUpsert(l: seq<Qos>, q: Qos, major: int, minor: int)
    requires !SameNumbers(q, major, minor)
    ensures Lookup(QosUpsert(l, q).list, major, minor) == Lookup(l, major, minor)
  {
    var p := ForDevice(major, minor);
    var r := QosUpsert(l, q).list;
    assert forall j :: 0 <= j < |l| ==> p(r[j]) == p(l[j]) && (p(l[j]) ==> r[j] == l[j]);
    if |r| > |l| {
      assert !p(r[|l|]);
    }
  }

  /** The loop over one kind fails only with the answer of the write it
    * logged last. */
  lemma {:induction false} QosLoopError(env: Env, s: QosRun, t: QosType, l: seq<Qos>)
    requires s.err.None?
    ensures var o := QosLoop(env, s, t, l);
            o.err.Some? ==> |o.calls| > |s.calls| && o.calls[|o.calls| - 1].QosCall? &&
                            o.calls[|o.calls| - 1].kind == t &&
                            env.qosWrite(t, o.calls[|o.calls| - 1].line) == o.err
    decreases |l|
  {
    if |l| > 0 {
      QosLoopError(env, s, t, l[..|l| - 1]);
      QosLoopFrame(env, s, t, l[..|l| - 1]);
    }
  }

  /** The loop over one kind touches only the list of that kind, and logs
    * calls only after those it was given. */
  lemma {:induction false} QosLoopFrame(env: Env, s: QosRun, t: QosType, l: seq<Qos>)
    ensures var o := QosLoop(env, s, t, l);
            (forall u :: u != t ==> QosOf(o.doc, u) == QosOf(s.doc, u)) &&
            o.doc.devices == s.doc.devices && o.doc.binds == s.doc.binds &&
            o.doc.nics == s.doc.nics && o.doc.routes == s.doc.routes &&
            |o.calls| >= |s.calls| && o.calls[..|s.calls|] == s.calls &&
            (s.err.Some? ==> o == s)
    decreases |l|
  {
    if |l| > 0 {
      var p := QosLoop(env, s, t, l[..|l| - 1]);
      QosLoopFrame(env, s, t, l[..|l| - 1]);
      if p.err.None? {
        QosStepFrame(env, p, t, l[|l| - 1]);
      }
    }
  }

  /** One entry touches only the list of its kind and appends to the calls. */
  lemma QosStepFrame(env: Env, p: QosRun, t: QosType, q: Qos)
    ensures var o := QosStep(env, p, t, q);
            (forall u :: u != t ==> QosOf(o.doc, u) == QosOf(p.doc, u)) &&
            o.doc.devices == p.doc.devices && o.doc.binds == p.doc.binds &&
            o.doc.nics == p.doc.nics && o.doc.routes == p.doc.routes &&
            |o.calls| >= |p.calls| && o.calls[..|p.calls|] == p.calls
  {
  }

  /** Entry `i` of `l` is written and no later written entry has its device
    * numbers. */
  predicate LastWritten(env: Env, t: QosType, l: seq<Qos>, i: nat)
    requires i < |l|
  {
    QosApplies(env, t, l[i]) &&
    forall j :: i < j < |l| && QosApplies(env, t, l[j]) ==> !SameNumbers(l[j], l[i].major, l[i].minor)
  }

  /** An entry written last is still written last without the final entry. */
  lemma LastWrittenPrefix(env: Env, t: QosType, l: seq<Qos>, i: nat)
    requires i < |l| - 1 && LastWritten(env, t, l, i)
    ensures LastWritten(env, t, l[..|l| - 1], i)
  {
    var init := l[..|l| - 1];
    assert init[i] == l[i];
    forall j | i < j < |init| && QosApplies(env, t, init[j])
      ensures !SameNumbers(init[j], init[i].major, init[i].minor)
    {
      assert init[j] == l[j];
    }
  }

  /** Without an error, each entry written last for its device numbers is
    * the value recorded for them. */
  lemma {:induction false} QosLoopRecords(env: Env, s: QosRun, t: QosType, l: seq<Qos>, i: nat)
    requires i < |l| && LastWritten(env, t, l, i)
    requires QosLoop(env, s, t, l).err.None?
    ensures Lookup(QosOf(QosLoop(env, s, t, l).doc, t), l[i].major, l[i].minor) == Some(l[i].value)
    decreases |l|
  {
    var init := l[..|l| - 1];
    var x := l[|l| - 1];
    var p := QosLoop(env, s, t, init);
    assert p.err.None?;
    if i < |l| - 1 {
      assert init[i] == l[i];
      LastWrittenPrefix(env, t, l, i);
      QosLoopRecords(env, s, t, init, i);
      if QosApplies(env, t, x) {
        assert !SameNumbers(x, l[i].major, l[i].minor);
        LookupKeptByUpsert(QosOf(p.doc, t), x, l[i].major, l[i].minor);
      }
    } else {
      UpsertThenLookup(QosOf(p.doc, t), x);
    }
  }

  /** One entry of `updateQos` on the store. */
  method UpdateQosOne(cfg: ContainerHookConfig, env: Env, t: QosType, q: Qos, calls0: seq<Call>)
    returns (calls: seq<Call>, err: Option<string>)
    modifies cfg
    ensures var o := QosStep(env, QosRun(old(cfg.Doc()), old(cfg.dirty), calls0, None), t, q);
            cfg.Doc() == o.doc && cfg.dirty == o.dirty && calls == o.calls && err == o.err
  {
    calls, err := calls0, None;
    if QosApplies(env, t, q) {
      calls := calls + [QosCall(t, QosString(q))];
      err := env.qosWrite(t, QosString(q));
      if err.None? {
        // The store's upsert never fails.
        var ignored := cfg.UpdateDeviceQos(q, t);
      }
    }
  }

  /** `updateQos` on the store: the entries of one kind in order. */
  method UpdateQosKind(cfg: ContainerHookConfig, env: Env, t: QosType, l: seq<Qos>, calls0: seq<Call>)
    returns (calls: seq<Call>, err: Option<string>)
    modifies cfg
    ensures var o := QosLoop(env, QosRun(old(cfg.Doc()), old(cfg.dirty), calls0, None), t, l);
            cfg.Doc() == o.doc && cfg.dirty == o.dirty && calls == o.calls && err == o.err
  {
    ghost var s0 := QosRun(cfg.Doc(), cfg.dirty, calls0, None);
    ghost var cur := s0;
    calls, err := calls0, None;
    var i := 0;
    while i < |l|
      invariant 0 <= i <= |l|
      invariant cur == QosLoop(env, s0, t, l[..i]) && cur.err.None?
      invariant cfg.Doc() == cur.doc && cfg.dirty == cur.dirty && calls == cur.calls && err.None?
    {
      QosLoopSnoc(env, s0, t, l, i);
      calls, err := UpdateQosOne(cfg, env, t, l[i], calls);
      cur := QosStep(env, cur, t, l[i]);
      if err.Some? {
        QosLoopStopsAt(env, s0, t, l, i + 1);
        return;
      }
      i := i + 1;
    }
    assert l[..i] == l;
  }

  /** `updateQos`: the five kinds in turn; the first error ends it. */
  method UpdateQos(cfg: ContainerHookConfig, env: Env, opts: AddDeviceOptions, calls0: seq<Call>)
    returns (calls: seq<Call>, err: Option<string>)
    modifies cfg
    ensures var o := UpdateQosSpec(env, QosRun(old(cfg.Doc()), old(cfg.dirty), calls0, None), opts);
            cfg.Doc() == o.doc && cfg.dirty == o.dirty && calls == o.calls && err == o.err
  {
    ghost var s0 := QosRun(cfg.Doc(), cfg.dirty, calls0, None);
    ghost var s1 := QosLoop(env, s0, ReadIOPS, opts.readIOPS);
    calls, err := UpdateQosKind(cfg, env, ReadIOPS, opts.readIOPS, calls0);
    if err.Some? {
      QosLoopStopped(env, s1, WriteIOPS, opts.writeIOPS);
      QosLoopStopped(env, s1, ReadBps, opts.readBps);
      QosLoopStopped(env, s1, WriteBps, opts.writeBps);
      QosLoopStopped(env, s1, BlkioWeight, opts.blkioWeight);
      return;
    }
    ghost var s2 := QosLoop(env, s1, WriteIOPS, opts.writeIOPS);
    calls, err := UpdateQosKind(cfg, env, WriteIOPS, opts.writeIOPS, calls);
    if err.Some? {
      QosLoopStopped(env, s2, ReadBps, opts.readBps);
      QosLoopStopped(env, s2, WriteBps, opts.writeBps);
      QosLoopStopped(env, s2, BlkioWeight, opts.blkioWeight);
      return;
    }
    ghost var s3 := QosLoop(env, s2, ReadBps, opts.readBps);
    calls, err := UpdateQosKind(cfg, env, ReadBps, opts.readBps, calls);
    if err.Some? {
      QosLoopStopped(env, s3, WriteBps, opts.writeBps);
      QosLoopStopped(env, s3, BlkioWeight, opts.blkioWeight);
      return;
    }
    ghost var s4 := QosLoop(env, s3, WriteBps, opts.writeBps);
    calls, err := UpdateQosKind(cfg, env, WriteBps, opts.writeBps, calls);
    if err.Some? {
      QosLoopStopped(env, s4, BlkioWeight, opts.blkioWeight);
      return;
    }
    calls, err := UpdateQosKind(cfg, env, BlkioWeight, opts.blkioWeight, calls);
  }

  /** The line `removeQos` writes to clear a device's limit. */
  function CleanLine(d: Device): string
  {
    QosString(Qos(d.major, d.minor, d.pathOnHost, "0"))
  }

  /** One kind of `removeQos`: the entry is dropped from the store first;
    * only when there was one is the cgroup file cleared, and its error ends
    * the removal. */
  function RemoveQosKind(env: Env, s: QosRun, d: Device, t: QosType): QosRun
  {
    if s.err.Some? then s
    else
      var e := QosRemove(QosOf(s.doc, t), d.major, d.minor);
      var s1 := s.(doc := WithQos(s.doc, t, e.list), dirty := s.dirty || e.changed);
      if !e.changed then s1
      else s1.(calls := s1.calls + [QosCall(t, CleanLine(d))], err := env.qosWrite(t, CleanLine(d)))
  }

  /** The order in which `removeQos` clears the kinds. */
  const RemovalOrder: seq<QosType> := [ReadIOPS, WriteIOPS, ReadBps, WriteBps, BlkioWeight]

  /** `RemoveQosKind` for each kind in turn. */
  function RemoveQosKinds(env: Env, s: QosRun, d: Device, ks: seq<QosType>): QosRun
    decreases |ks|
  {
    if |ks| == 0 then s else RemoveQosKinds(env, RemoveQosKind(env, s, d, ks[0]), d, ks[1..])
  }

  /** `removeQos`: read iops, write iops, read bps, write bps, weights. */
  function RemoveQosSpec(env: Env, s: QosRun, d: Device): QosRun
  {
    RemoveQosKinds(env, s, d, RemovalOrder)
  }

  /** Once a clearing write failed, the remaining kinds are not touched. */
  lemma {:induction false} RemoveQosKindsStopped(env: Env, s: QosRun, d: Device, ks: seq<QosType>)
    requires s.err.Some?
    ensures RemoveQosKinds(env, s, d, ks) == s
    decreases |ks|
  {
    if |ks| > 0 {
      RemoveQosKindsStopped(env, s, d, ks[1..]);
    }
  }

  /** What clearing a device's QoS entries keeps: the devices, the binds
    * and the entries of every other device, of every kind. */
  predicate QosKept(a: HookDoc, b: HookDoc, d: Device)
  {
    a.devices == b.devices && a.binds == b.binds &&
    forall t :: Others(QosOf(a, t), d.major, d.minor) == Others(QosOf(b, t), d.major, d.minor)
  }

  /** Without an error, every kind has lost its first entry for the device
    * and kept the entries of every other device; an error is the answer of
    * the clearing write logged last. */
  lemma RemoveQosKindEffect(env: Env, s: QosRun, d: Device, t: QosType)
    requires s.err.None?
    ensures var o := RemoveQosKind(env, s, d, t);
            Others(QosOf(o.doc, t), d.major, d.minor) == Others(QosOf(s.doc, t), d.major, d.minor) &&
            |QosOf(o.doc, t)| == |QosOf(s.doc, t)| - (if Lookup(QosOf(s.doc, t), d.major, d.minor).Some? then 1 else 0) &&
            (forall u :: u != t ==> QosOf(o.doc, u) == QosOf(s.doc, u)) &&
            o.doc.devices == s.doc.devices && o.doc.binds == s.doc.binds &&
            (o.err.Some? ==> o.calls == s.calls + [QosCall(t, CleanLine(d))] && o.err == env.qosWrite(t, CleanLine(d)))
  {
    RemoveKeepsOthers(QosOf(s.doc, t), d.major, d.minor);
  }

  /** One kind of `removeQos` on the store. */
  method RemoveQosOne(cfg: ContainerHookConfig, env: Env, d: Device, t: QosType, calls0: seq<Call>)
    returns (calls: seq<Call>, err: Option<string>)
    modifies cfg
    ensures var o := RemoveQosKind(env, QosRun(old(cfg.Doc()), old(cfg.dirty), calls0, None), d, t);
            cfg.Doc() == o.doc && cfg.dirty == o.dirty && calls == o.calls && err == o.err
  {
    calls, err := calls0, None;
    var found, ignored := cfg.RemoveDeviceQos(d, t);
    if found {
      calls := calls + [QosCall(t, CleanLine(d))];
      err := env.qosWrite(t, CleanLine(d));
    }
  }

  /** The kinds `ks` of `removeQos` in turn, stopping at the first
    * failed clearing write. */
  method RemoveQosFrom(cfg: ContainerHookConfig, env: Env, d: Device, ks: seq<QosType>, calls0: seq<Call>)
    returns (calls: seq<Call>, err: Option<string>)
    modifies cfg
    ensures var o := RemoveQosKinds(env, QosRun(old(cfg.Doc()), old(cfg.dirty), calls0, None), d, ks);
            cfg.Doc() == o.doc && cfg.dirty == o.dirty && calls == o.calls && err == o.err
    decreases |ks|
  {
    if |ks| == 0 {
      return calls0, None;
    }
    ghost var s := QosRun(cfg.Doc(), cfg.dirty, calls0, None);
    calls, err := RemoveQosOne(cfg, env, d, ks[0], calls0);
    if err.Some? {
      RemoveQosKindsStopped(env, RemoveQosKind(env, s, d, ks[0]), d, ks[1..]);
      return;
    }
    calls, err := RemoveQosFrom(cfg, env, d, ks[1..], calls);
  }

  /** `removeQos` on the store. */
  method RemoveQos(cfg: ContainerHookConfig, env: Env, d: Device, calls0: seq<Call>)
    returns (calls: seq<Call>, err: Option<string>)
    modifies cfg
    ensures var o := RemoveQosSpec(env, QosRun(old(cfg.Doc()), old(cfg.dirty), calls0, None), d);
            cfg.Doc() == o.doc && cfg.dirty == o.dirty && calls == o.calls && err == o.err
  {
    calls, err := RemoveQosFrom(cfg, env, d, RemovalOrder, calls0);
  }

  // ---------------------------------------------------------------------
  // AddDevice and UpdateDevice

  /** The store, the udev rules and what a device command has done so far. */
  datatype DevRun = DevRun(doc: HookDoc, dirty: bool, rules: seq<Rule>, udevDirty: bool,
                           errs: seq<string>, calls: seq<Call>)

  /** The udev rule of a device of this container. */
  function DeviceRule(env: Env, d: Device): Rule
  {
    Rule(d.pathOnHost, d.path, env.containerID)
  }

  /** Every rule names a container by an id of at least eight characters,
    * so that rules can be compared. */
  predicate LongIds(rules: seq<Rule>)
  {
    forall i :: 0 <= i < |rules| ==> |rules[i].container| >= 8
  }

  lemma LongIdsKept(rules: seq<Rule>, r: Rule)
    requires LongIds(rules) && |r.container| >= 8
    ensures Comparable(r, rules)
    ensures LongIds(Added(rules, r)) && LongIds(Removed(rules, r))
  {
    RemoveDropsOne(rules, r);
  }

  /** `config.UpdateDevice` where its error is ignored. */
  function StoreDevice(s: DevRun, d: Device, isAdd: bool): DevRun
  {
    match ConfigDevice.UpdateDevice(s.doc.devices, d, isAdd)
    case Ok(devs) => s.(doc := s.doc.(devices := devs), dirty := true)
    case Err(_) => s
  }

  /** `AddRule` of a controller that is in use or not. */
  function WithRule(use: bool, s: DevRun, r: Rule): DevRun
  {
    if !use then s
    else s.(rules := Added(s.rules, r), udevDirty := s.udevDirty || FirstIndex(s.rules, Matches(r)).None?)
  }

  /** `RemoveRule` of a controller that is in use or not. */
  function WithoutRule(use: bool, s: DevRun, r: Rule): DevRun
  {
    if !use then s
    else s.(rules := Removed(s.rules, r), udevDirty := s.udevDirty || FirstIndex(s.rules, Matches(r)).Some?)
  }

  function Failed(s: DevRun, e: string): DevRun
  {
    s.(errs := s.errs + [e])
  }

  function Logged(s: DevRun, c: Call): DevRun
  {
    s.(calls := s.calls + [c])
  }

  /** The run after `UpdateDevice` stored a new device list. */
  function Stored(s: DevRun, devs: seq<DeviceMapping>): DevRun
  {
    s.(doc := s.doc.(devices := devs), dirty := true)
  }

  /** One device of `AddDevice`: store it, then go on with `Classify`. */
  function AddStep(env: Env, use: bool, opts: AddDeviceOptions, s: DevRun, d: Device): DevRun
  {
    match ConfigDevice.UpdateDevice(s.doc.devices, d, true)
    case Err(e) => Failed(s, e)
    case Ok(devs) => Classify(env, use, opts, Stored(s, devs), d)
  }

  /** A block device is looked up with lsblk: its error undoes the store,
    * and a whole disk gets a udev rule. */
  function Classify(env: Env, use: bool, opts: AddDeviceOptions, s: DevRun, d: Device): DevRun
  {
    if d.typ == "c" then Insert(env, use, opts, s, d)
    else
      match env.devType(d.pathOnHost)
      case Err(e) => StoreDevice(Failed(s, e), d, false)
      case Ok(t) => Insert(env, use, opts, if t == "disk" then WithRule(use, s, DeviceRule(env, d)) else s, d)
  }

  /** For a running container that is not only to be reconfigured: insert
    * the node and allow it in the cgroup; when either fails, the store and
    * the rule are undone (and an inserted node removed). */
  function Insert(env: Env, use: bool, opts: AddDeviceOptions, s: DevRun, d: Device): DevRun
  {
    if opts.updateConfigOnly || !env.running then s
    else
      var s1 := Logged(s, AddDeviceCall(d, opts.force));
      match env.driverAddDevice(d, opts.force)
      case Some(e) => WithoutRule(use, StoreDevice(Failed(s1, e), d, false), DeviceRule(env, d))
      case None =>
        var s2 := Logged(s1, CgroupCall(d, true));
        match env.cgroup(d, true)
        case Some(e) => WithoutRule(use, StoreDevice(Logged(Failed(s2, e), RemoveDeviceCall(d)), d, false), DeviceRule(env, d))
        case None => s2
  }

  /** The device loop of `AddDevice`. */
  function AddAll(env: Env, use: bool, opts: AddDeviceOptions, s: DevRun, devs: seq<Device>): DevRun
    decreases |devs|
  {
    if |devs| == 0 then s
    else AddStep(env, use, opts, AddAll(env, use, opts, s, devs[..|devs| - 1]), devs[|devs| - 1])
  }

  /** The QoS options written after the devices, as part of a device run. */
  function WithQosUpdate(env: Env, s: DevRun, opts: AddDeviceOptions): (DevRun, Option<string>)
  {
    var q := UpdateQosSpec(env, QosRun(s.doc, s.dirty, s.calls, None), opts);
    (s.(doc := q.doc, dirty := q.dirty, calls := q.calls), q.err)
  }

  /** `AddDevice` from the loaded store and rules: the owner fix, the validation
    * of the QoS options, the devices, then the QoS options; an error of the
    * QoS options replaces the errors of the devices. */
  function AddDeviceSpec(env: Env, use: bool, s: DevRun, spec: Option<OciSpec.Spec>,
                         devs: seq<Device>, opts: AddDeviceOptions): (DevRun, Option<string>)
  {
    var owned := OwnedDevices(spec, devs);
    match CheckDevice(s.doc.devices, owned, opts)
    case Some(e) => (s, Some(e))
    case None =>
      var a := AddAll(env, use, opts, s, owned);
      var (q, qerr) := WithQosUpdate(env, a, opts);
      (q, if qerr.Some? then qerr else Aggregate(a.errs))
  }

  /** A device just added is the one a removal by the same device finds:
    * undoing the add gives the old list back. */
  lemma RemoveUndoesAdd(devs: seq<DeviceMapping>, d: Device)
    requires ConfigDevice.UpdateDevice(devs, d, true).Ok?
    ensures ConfigDevice.UpdateDevice(devs + [ToMapping(d)], d, false) == Ok(devs)
  {
    var n := devs + [ToMapping(d)];
    assert forall i :: 0 <= i < |devs| ==> n[i] == devs[i] && !Conflicts(devs[i], d) && !QueryMatches(d, n[i]);
    assert QueryMatches(d, n[|devs|]);
    assert DeviceIndexInArray(n, d) == Some(|devs|);
    assert RemoveAt(n, |devs|) == devs;
  }

  /** `Insert` either succeeds, touching only the calls, or adds one error
    * and undoes the store and the rule of the device. */
  lemma InsertOutcome(env: Env, use: bool, opts: AddDeviceOptions, s: DevRun, d: Device)
    ensures var o := Insert(env, use, opts, s, d);
            (o.errs == s.errs && o.(calls := s.calls) == s) ||
            (|o.errs| == |s.errs| + 1 && o.errs[..|s.errs|] == s.errs &&
             o.doc == StoreDevice(s, d, false).doc &&
             o.rules == WithoutRule(use, s, DeviceRule(env, d)).rules)
  {
    if !opts.updateConfigOnly && env.running {
      var s1 := Logged(s, AddDeviceCall(d, opts.force));
      if env.driverAddDevice(d, opts.force).Some? {
        UndoOutcome(use, s, Failed(s1, env.driverAddDevice(d, opts.force).value), d, DeviceRule(env, d));
      } else if env.cgroup(d, true).Some? {
        UndoOutcome(use, s, Logged(Failed(Logged(s1, CgroupCall(d, true)), env.cgroup(d, true).value), RemoveDeviceCall(d)),
                    d, DeviceRule(env, d));
      }
    }
  }

  /** Undoing the store and the rule after one more error. */
  lemma UndoOutcome(use: bool, s: DevRun, f: DevRun, d: Device, r: Rule)
    requires f.doc == s.doc && f.rules == s.rules && f.udevDirty == s.udevDirty
    requires |f.errs| == |s.errs| + 1 && f.errs[..|s.errs|] == s.errs
    ensures var o := WithoutRule(use, StoreDevice(f, d, false), r);
            o.errs == f.errs && o.doc == StoreDevice(s, d, false).doc && o.rules == WithoutRule(use, s, r).rules
  {
  }

  /** `Classify` the same way, for a device whose rule goes only to disks. */
  lemma ClassifyOutcome(env: Env, use: bool, opts: AddDeviceOptions, s: DevRun, d: Device)
    ensures var o := Classify(env, use, opts, s, d);
            (o.errs == s.errs && o.doc == s.doc) ||
            (|o.errs| == |s.errs| + 1 && o.errs[..|s.errs|] == s.errs && o.doc == StoreDevice(s, d, false).doc)
  {
    if d.typ == "c" || env.devType(d.pathOnHost).Ok? {
      var s1 := if d.typ != "c" && env.devType(d.pathOnHost).value == "disk" then WithRule(use, s, DeviceRule(env, d)) else s;
      InsertOutcome(env, use, opts, s1, d);
    } else {
      assert Classify(env, use, opts, s, d).errs[..|s.errs|] == s.errs;
    }
  }

  /** Each device either fails with one more error and the device list as
    * it was, or succeeds with no error and the device appended; the other
    * stored lists never change. */
  lemma AddStepOutcome(env: Env, use: bool, opts: AddDeviceOptions, s: DevRun, d: Device)
    ensures var o := AddStep(env, use, opts, s, d);
            o.doc == s.doc.(devices := o.doc.devices) &&
            (o.errs == s.errs || (|o.errs| == |s.errs| + 1 && o.errs[..|s.errs|] == s.errs)) &&
            (o.errs == s.errs ==> o.doc.devices == s.doc.devices + [ToMapping(d)]) &&
            (o.errs != s.errs ==> o.doc.devices == s.doc.devices)
  {
    match ConfigDevice.UpdateDevice(s.doc.devices, d, true)
    case Err(e) =>
      assert Failed(s, e).errs[..|s.errs|] == s.errs;
    case Ok(devs) =>
      RemoveUndoesAdd(s.doc.devices, d);
      ClassifyOutcome(env, use, opts, Stored(s, devs), d);
  }

  /** A device that fails leaves the udev rules as they were, provided its
    * rule was not there before. */
  lemma AddStepRollsBackRule(env: Env, use: bool, opts: AddDeviceOptions, s: DevRun, d: Device)
    requires |env.containerID| >= 8 && FirstIndex(s.rules, Matches(DeviceRule(env, d))).None?
    ensures var o := AddStep(env, use, opts, s, d);
            |o.errs| > |s.errs| ==> o.rules == s.rules
  {
    var r := DeviceRule(env, d);
    match ConfigDevice.UpdateDevice(s.doc.devices, d, true)
    case Err(e) =>
    case Ok(devs) =>
      var s1 := Stored(s, devs);
      if d.typ == "c" || env.devType(d.pathOnHost).Ok? {
        var s2 := if d.typ != "c" && env.devType(d.pathOnHost).value == "disk" then WithRule(use, s1, r) else s1;
        InsertOutcome(env, use, opts, s2, d);
        RemoveAfterAdd(s.rules, r);
        assert use ==> WithoutRule(use, s2, r).rules == s.rules;
      }
  }

  /** With `--update-config-only`, or for a stopped container, a device
    * asks nothing of the driver or the cgroup files. */
  lemma AddStepQuiet(env: Env, use: bool, opts: AddDeviceOptions, s: DevRun, d: Device)
    requires opts.updateConfigOnly || !env.running
    ensures AddStep(env, use, opts, s, d).calls == s.calls
  {
  }

  /** ... and neither does the whole batch. */
  lemma {:induction false} AddAllQuiet(env: Env, use: bool, opts: AddDeviceOptions, s: DevRun, devs: seq<Device>)
    requires opts.updateConfigOnly || !env.running
    ensures AddAll(env, use, opts, s, devs).calls == s.calls
    decreases |devs|
  {
    if |devs| > 0 {
      AddAllQuiet(env, use, opts, s, devs[..|devs| - 1]);
      AddStepQuiet(env, use, opts, AddAll(env, use, opts, s, devs[..|devs| - 1]), devs[|devs| - 1]);
    }
  }

  /** `AddStepOutcome` for the last device of a batch. */
  lemma AddAllLast(env: Env, use: bool, opts: AddDeviceOptions, s: DevRun, devs: seq<Device>)
    requires |devs| > 0
    ensures var o := AddAll(env, use, opts, s, devs);
            var p := AddAll(env, use, opts, s, devs[..|devs| - 1]);
            o.doc == p.doc.(devices := o.doc.devices) &&
            (o.errs == p.errs || (|o.errs| == |p.errs| + 1 && o.errs[..|p.errs|] == p.errs)) &&
            (o.errs == p.errs ==> o.doc.devices == p.doc.devices + [ToMapping(devs[|devs| - 1])]) &&
            (o.errs != p.errs ==> o.doc.devices == p.doc.devices)
  {
    AddStepOutcome(env, use, opts, AddAll(env, use, opts, s, devs[..|devs| - 1]), devs[|devs| - 1]);
  }

  /** Over the batch: the other stored lists never change, errors only
    * accumulate, and every device adds either one error or one entry. */
  lemma {:induction false} AddAllCounts(env: Env, use: bool, opts: AddDeviceOptions, s: DevRun, devs: seq<Device>)
    ensures var o := AddAll(env, use, opts, s, devs);
            o.doc == s.doc.(devices := o.doc.devices) &&
            |o.errs| >= |s.errs| && o.errs[..|s.errs|] == s.errs &&
            |o.doc.devices| + |o.errs| == |s.doc.devices| + |s.errs| + |devs|
    decreases |devs|
  {
    if |devs| > 0 {
      var p := AddAll(env, use, opts, s, devs[..|devs| - 1]);
      var o := AddAll(env, use, opts, s, devs);
      AddAllCounts(env, use, opts, s, devs[..|devs| - 1]);
      AddAllLast(env, use, opts, s, devs);
      assert o.errs[..|s.errs|] == p.errs[..|s.errs|];
    }
  }

  /** An error list that grew from `a` to `b` and then stayed or grew by
    * one to end as `a` did not grow at all. */
  lemma Squeezed(a: seq<string>, b: seq<string>, c: seq<string>)
    requires |b| >= |a| && b[..|a|] == a
    requires c == b || (|c| == |b| + 1 && c[..|b|] == b)
    requires c == a
    ensures b == a
  {
  }

  lemma MappedAppend(a: seq<DeviceMapping>, devs: seq<Device>)
    requires |devs| > 0
    ensures a + Map(devs[..|devs| - 1], ToMapping) + [ToMapping(devs[|devs| - 1])] == a + Map(devs, ToMapping)
  {
    assert devs == devs[..|devs| - 1] + [devs[|devs| - 1]];
    MapSnoc(devs[..|devs| - 1], devs[|devs| - 1], ToMapping);
  }

  /** A batch without device errors has appended every device, in order. */
  lemma {:induction false} AddAllNoErrors(env: Env, use: bool, opts: AddDeviceOptions, s: DevRun, devs: seq<Device>)
    requires AddAll(env, use, opts, s, devs).errs == s.errs
    ensures AddAll(env, use, opts, s, devs).doc.devices == s.doc.devices + Map(devs, ToMapping)
    decreases |devs|
  {
    if |devs| > 0 {
      var init := devs[..|devs| - 1];
      var x := devs[|devs| - 1];
      var p := AddAll(env, use, opts, s, init);
      var o := AddAll(env, use, opts, s, devs);
      AddAllCounts(env, use, opts, s, init);
      AddAllLast(env, use, opts, s, devs);
      Squeezed(s.errs, p.errs, o.errs);
      AddAllNoErrors(env, use, opts, s, init);
      MappedAppend(s.doc.devices, devs);
    }
  }

  /** A batch reports no device error exactly when every device was added,
    * in order, behind the devices already stored. */
  lemma AddAllClean(env: Env, use: bool, opts: AddDeviceOptions, s: DevRun, devs: seq<Device>)
    ensures var o := AddAll(env, use, opts, s, devs);
            o.errs == s.errs <==> o.doc.devices == s.doc.devices + Map(devs, ToMapping)
  {
    AddAllCounts(env, use, opts, s, devs);
    if AddAll(env, use, opts, s, devs).errs == s.errs {
      AddAllNoErrors(env, use, opts, s, devs);
    }
  }

  /** The state of the store and the controller, for the methods. */
  function DevState(cfg: ContainerHookConfig, ctrl: Controller, errs: seq<string>, calls: seq<Call>): DevRun
    reads cfg, ctrl
  {
    DevRun(cfg.Doc(), cfg.dirty, ctrl.rules, ctrl.dirty, errs, calls)
  }

  /** The rollback of a device: out of the store, and its rule dropped. */
  method Undo(cfg: ContainerHookConfig, ctrl: Controller, env: Env, d: Device, errs: seq<string>, calls: seq<Call>)
    requires |env.containerID| >= 8 && (ctrl.useUdevd ==> LongIds(ctrl.rules))
    modifies cfg, ctrl
    ensures DevState(cfg, ctrl, errs, calls) ==
            WithoutRule(ctrl.useUdevd, StoreDevice(DevRun(old(cfg.Doc()), old(cfg.dirty), old(ctrl.rules), old(ctrl.dirty), errs, calls), d, false),
                        DeviceRule(env, d))
    ensures ctrl.useUdevd ==> LongIds(ctrl.rules)
  {
    var ignored := cfg.UpdateDevice(d, false);
    if ctrl.useUdevd {
      LongIdsKept(ctrl.rules, DeviceRule(env, d));
    }
    ctrl.RemoveRule(DeviceRule(env, d));
  }

  /** `Insert` on the store and the controller. */
  method InsertOne(cfg: ContainerHookConfig, ctrl: Controller, env: Env, opts: AddDeviceOptions, d: Device,
                   errs0: seq<string>, calls0: seq<Call>)
    returns (errs: seq<string>, calls: seq<Call>)
    requires |env.containerID| >= 8 && (ctrl.useUdevd ==> LongIds(ctrl.rules))
    modifies cfg, ctrl
    ensures DevState(cfg, ctrl, errs, calls) ==
            Insert(env, ctrl.useUdevd, opts, DevRun(old(cfg.Doc()), old(cfg.dirty), old(ctrl.rules), old(ctrl.dirty), errs0, calls0), d)
    ensures ctrl.useUdevd ==> LongIds(ctrl.rules)
  {
    errs, calls := errs0, calls0;
    if opts.updateConfigOnly || !env.running {
      return;
    }
    calls := calls + [AddDeviceCall(d, opts.force)];
    var de := env.driverAddDevice(d, opts.force);
    if de.Some? {
      errs := errs + [de.value];
      Undo(cfg, ctrl, env, d, errs, calls);
      return;
    }
    calls := calls + [CgroupCall(d, true)];
    var ce := env.cgroup(d, true);
    if ce.Some? {
      errs := errs + [ce.value];
      calls := calls + [RemoveDeviceCall(d)];
      Undo(cfg, ctrl, env, d, errs, calls);
    }
  }

  /** One device of `AddDevice` on the store and the controller. */
  method AddOne(cfg: ContainerHookConfig, ctrl: Controller, env: Env, opts: AddDeviceOptions, d: Device,
                errs0: seq<string>, calls0: seq<Call>)
    returns (errs: seq<string>, calls: seq<Call>)
    requires |env.containerID| >= 8 && (ctrl.useUdevd ==> LongIds(ctrl.rules))
    modifies cfg, ctrl
    ensures DevState(cfg, ctrl, errs, calls) ==
            AddStep(env, ctrl.useUdevd, opts, DevRun(old(cfg.Doc()), old(cfg.dirty), old(ctrl.rules), old(ctrl.dirty), errs0, calls0), d)
    ensures ctrl.useUdevd ==> LongIds(ctrl.rules)
  {
    errs, calls := errs0, calls0;
    var e := cfg.UpdateDevice(d, true);
    if e.Some? {
      errs := errs + [e.value];
      return;
    }
    errs, calls := ClassifyOne(cfg, ctrl, env, opts, d, errs, calls);
  }

  /** `Classify` on the store and the controller. */
  method ClassifyOne(cfg: ContainerHookConfig, ctrl: Controller, env: Env, opts: AddDeviceOptions, d: Device,
                     errs0: seq<string>, calls0: seq<Call>)
    returns (errs: seq<string>, calls: seq<Call>)
    requires |env.containerID| >= 8 && (ctrl.useUdevd ==> LongIds(ctrl.rules))
    modifies cfg, ctrl
    ensures DevState(cfg, ctrl, errs, calls) ==
            Classify(env, ctrl.useUdevd, opts, DevRun(old(cfg.Doc()), old(cfg.dirty), old(ctrl.rules), old(ctrl.dirty), errs0, calls0), d)
    ensures ctrl.useUdevd ==> LongIds(ctrl.rules)
  {
    errs, calls := errs0, calls0;
    if d.typ != "c" {
      var stop;
      errs, stop := TypeLookup(cfg, ctrl, env, d, false, errs, calls);
      if stop {
        return;
      }
    }
    errs, calls := InsertOne(cfg, ctrl, env, opts, d, errs, calls);
  }

  /** The device-type lookup of `Classify` and `Restore`: a failed lookup
    * stores the device once more (`isAdd` says how) and stops, a disk gets
    * its udev rule. */
  method TypeLookup(cfg: ContainerHookConfig, ctrl: Controller, env: Env, d: Device, isAdd: bool,
                    errs0: seq<string>, calls: seq<Call>)
    returns (errs: seq<string>, stop: bool)
    requires |env.containerID| >= 8 && (ctrl.useUdevd ==> LongIds(ctrl.rules))
    modifies cfg, ctrl
    ensures var s := DevRun(old(cfg.Doc()), old(cfg.dirty), old(ctrl.rules), old(ctrl.dirty), errs0, calls);
            match env.devType(d.pathOnHost)
            case Err(e) => stop && DevState(cfg, ctrl, errs, calls) == StoreDevice(Failed(s, e), d, isAdd)
            case Ok(t) => !stop && DevState(cfg, ctrl, errs, calls) == if t == "disk" then WithRule(ctrl.useUdevd, s, DeviceRule(env, d)) else s
    ensures ctrl.useUdevd ==> LongIds(ctrl.rules)
  {
    errs, stop := errs0, false;
    var typ := env.devType(d.pathOnHost);
    if typ.Err? {
      errs, stop := errs + [typ.msg], true;
      var _ := cfg.UpdateDevice(d, isAdd);
      return;
    }
    if typ.value == "disk" {
      if ctrl.useUdevd {
        LongIdsKept(ctrl.rules, DeviceRule(env, d));
      }
      ctrl.AddRule(DeviceRule(env, d));
    }
  }

  /** One more device of the batch. */
  lemma AddAllSnoc(env: Env, use: bool, opts: AddDeviceOptions, s: DevRun, devs: seq<Device>, i: nat)
    requires i < |devs|
    ensures AddAll(env, use, opts, s, devs[..i + 1]) == AddStep(env, use, opts, AddAll(env, use, opts, s, devs[..i]), devs[i])
  {
    assert devs[..i + 1][..i] == devs[..i];
  }

  /** The device loop of `AddDevice` on the store and the controller. */
  method AddLoop(cfg: ContainerHookConfig, ctrl: Controller, env: Env, opts: AddDeviceOptions, devs: seq<Device>)
    returns (errs: seq<string>, calls: seq<Call>)
    requires |env.containerID| >= 8 && (ctrl.useUdevd ==> LongIds(ctrl.rules))
    modifies cfg, ctrl
    ensures DevState(cfg, ctrl, errs, calls) ==
            AddAll(env, ctrl.useUdevd, opts, DevRun(old(cfg.Doc()), old(cfg.dirty), old(ctrl.rules), old(ctrl.dirty), [], []), devs)
  {
    ghost var s0 := DevState(cfg, ctrl, [], []);
    errs, calls := [], [];
    var i := 0;
    while i < |devs|
      invariant 0 <= i <= |devs|
      invariant DevState(cfg, ctrl, errs, calls) == AddAll(env, ctrl.useUdevd, opts, s0, devs[..i])
      invariant ctrl.useUdevd ==> LongIds(ctrl.rules)
    {
      errs, calls := AddTurn(cfg, ctrl, env, opts, devs, i, errs, calls, s0);
      i := i + 1;
    }
    assert devs[..i] == devs;
  }

  /** One turn of `AddLoop`: the fold over the first `i` devices becomes
    * the fold over `i + 1`. */
  method AddTurn(cfg: ContainerHookConfig, ctrl: Controller, env: Env, opts: AddDeviceOptions, devs: seq<Device>, i: nat,
                 errs0: seq<string>, calls0: seq<Call>, ghost s0: DevRun)
    returns (errs: seq<string>, calls: seq<Call>)
    requires |env.containerID| >= 8 && (ctrl.useUdevd ==> LongIds(ctrl.rules))
    requires i < |devs| && DevState(cfg, ctrl, errs0, calls0) == AddAll(env, ctrl.useUdevd, opts, s0, devs[..i])
    modifies cfg, ctrl
    ensures DevState(cfg, ctrl, errs, calls) == AddAll(env, ctrl.useUdevd, opts, s0, devs[..i + 1])
    ensures ctrl.useUdevd ==> LongIds(ctrl.rules)
  {
    AddAllSnoc(env, ctrl.useUdevd, opts, s0, devs, i);
    errs, calls := AddOne(cfg, ctrl, env, opts, devs[i], errs0, calls0);
  }

  /** `AddDevice` from the point the store and the udev rules are loaded. */
  method AddDevice(cfg: ContainerHookConfig, ctrl: Controller, env: Env, spec: Option<OciSpec.Spec>,
                   devices: seq<Device>, opts: AddDeviceOptions)
    returns (err: Option<string>, calls: seq<Call>)
    requires |env.containerID| >= 8 && (ctrl.useUdevd ==> LongIds(ctrl.rules))
    modifies cfg, ctrl
    ensures var (o, e) := AddDeviceSpec(env, ctrl.useUdevd, DevRun(old(cfg.Doc()), old(cfg.dirty), old(ctrl.rules), old(ctrl.dirty), [], []),
                                        spec, devices, opts);
            DevState(cfg, ctrl, o.errs, calls) == o && err == e
  {
    var owned := OwnedDevices(spec, devices);
    calls := [];
    err := CheckDevice(cfg.devices, owned, opts);
    if err.Some? {
      return;
    }
    var errs;
    errs, calls := AddLoop(cfg, ctrl, env, opts, owned);
    var qerr;
    calls, qerr := UpdateQos(cfg, env, opts, calls);
    err := if qerr.Some? then qerr else Aggregate(errs);
  }

  /** `UpdateDevice`: the QoS options alone, checked against the stored
    * devices. */
  method UpdateDevice(cfg: ContainerHookConfig, env: Env, opts: AddDeviceOptions)
    returns (err: Option<string>, calls: seq<Call>)
    modifies cfg
    ensures CheckDevice(old(cfg.devices), [], opts).Some? ==>
              cfg.Doc() == old(cfg.Doc()) && cfg.dirty == old(cfg.dirty) && calls == [] &&
              err == CheckDevice(old(cfg.devices), [], opts)
    ensures CheckDevice(old(cfg.devices), [], opts).None? ==>
              var o := UpdateQosSpec(env, QosRun(old(cfg.Doc()), old(cfg.dirty), [], None), opts);
              cfg.Doc() == o.doc && cfg.dirty == o.dirty && calls == o.calls && err == o.err
  {
    calls := [];
    err := CheckDevice(cfg.devices, [], opts);
    if err.Some? {
      return;
    }
    calls, err := UpdateQos(cfg, env, opts, calls);
  }

  // ---------------------------------------------------------------------
  // RemoveDevice

  /** The devices a removal works on and the errors of the queries that
    * name no stored device. */
  datatype Collected = Collected(devices: seq<Device>, errs: seq<string>)

  predicate SamePaths(a: Device, b: Device)
  {
    a.path == b.path && a.pathOnHost == b.pathOnHost
  }

  function NotAddedError(d: Device): string
  {
    "Device pair(" + d.pathOnHost + ":" + d.path + ") is not added by syscontainer-tools, can not remove it, please check input parameter."
  }

  /** The partitions of a disk joined to the list, in order, each unless it
    * is not stored or a device with its two paths is already listed. */
  function FollowSubs(stored: seq<DeviceMapping>, l: seq<Device>, subs: seq<Device>): seq<Device>
    decreases |subs|
  {
    if |subs| == 0 then l
    else
      var p := FollowSubs(stored, l, subs[..|subs| - 1]);
      var x := subs[|subs| - 1];
      if FindDeviceByMapping(stored, x).None? || exists k :: 0 <= k < |p| && SamePaths(p[k], x) then p else p + [x]
  }

  /** One query: the stored device with its two paths, followed by its
    * partitions when asked. */
  function CollectStep(stored: seq<DeviceMapping>, follow: bool, c: Collected, d: Device): Collected
  {
    match FindDeviceByMapping(stored, d)
    case None => c.(errs := c.errs + [NotAddedError(d)])
    case Some(nd) =>
      var l := c.devices + [nd];
      c.(devices := if follow then FollowSubs(stored, l, FindSubPartition(stored, nd)) else l)
  }

  /** The collecting loop of `RemoveDevice`, continued from `c`. */
  function Collect(stored: seq<DeviceMapping>, follow: bool, c: Collected, ds: seq<Device>): Collected
    decreases |ds|
  {
    if |ds| == 0 then c
    else Collect(stored, follow, CollectStep(stored, follow, c, ds[0]), ds[1..])
  }

  /** The error of a query that names no stored device. */
  function NotFound(stored: seq<DeviceMapping>): Device -> Option<string>
  {
    d => if FindDeviceByMapping(stored, d).None? then Some(NotAddedError(d)) else None
  }

  predicate IsStored(stored: seq<DeviceMapping>, d: Device)
  {
    exists m :: m in stored && d == ToDevice(m)
  }

  predicate AllStored(stored: seq<DeviceMapping>, ds: seq<Device>)
  {
    forall k :: 0 <= k < |ds| ==> IsStored(stored, ds[k])
  }

  /** Joining partitions keeps the list as a prefix and adds only stored
    * devices not listed before. */
  lemma {:induction false} FollowSubsAdds(stored: seq<DeviceMapping>, l: seq<Device>, subs: seq<Device>)
    requires forall k :: 0 <= k < |subs| ==> IsStored(stored, subs[k])
    ensures var r := FollowSubs(stored, l, subs);
            |r| >= |l| && r[..|l|] == l &&
            forall k :: |l| <= k < |r| ==> IsStored(stored, r[k]) && forall j :: 0 <= j < k ==> !SamePaths(r[j], r[k])
    decreases |subs|
  {
    if |subs| > 0 {
      var init := subs[..|subs| - 1];
      FollowSubsAdds(stored, l, init);
      var p := FollowSubs(stored, l, init);
      var r := FollowSubs(stored, l, subs);
      assert r[..|l|] == p[..|l|];
    }
  }

  /** A device with the two paths of `x` is in the list. */
  predicate Listed(r: seq<Device>, x: Device)
  {
    exists k :: 0 <= k < |r| && SamePaths(r[k], x)
  }

  /** After joining, every partition the store knows by its two paths has
    * a device with those paths in the list. */
  lemma {:induction false} FollowSubsCovers(stored: seq<DeviceMapping>, l: seq<Device>, subs: seq<Device>)
    ensures forall x :: x in subs && FindDeviceByMapping(stored, x).Some? ==> Listed(FollowSubs(stored, l, subs), x)
    decreases |subs|
  {
    if |subs| > 0 {
      var init := subs[..|subs| - 1];
      var x := subs[|subs| - 1];
      FollowSubsCovers(stored, l, init);
      var p := FollowSubs(stored, l, init);
      var r := FollowSubs(stored, l, subs);
      assert subs == init + [x];
      if FindDeviceByMapping(stored, x).Some? {
        if r == p {
          assert Listed(p, x);
        } else {
          assert SamePaths(r[|p|], x);
        }
      }
      forall y | y in init && Listed(p, y)
        ensures Listed(r, y)
      {
        var k :| 0 <= k < |p| && SamePaths(p[k], y);
        assert r[k] == p[k];
      }
    }
  }

  /** The errors of the collection are those of the queries that name no
    * stored device, in order. */
  lemma {:induction false} CollectErrors(stored: seq<DeviceMapping>, follow: bool, c: Collected, ds: seq<Device>)
    ensures Collect(stored, follow, c, ds).errs == c.errs + FilterMap(ds, NotFound(stored))
    decreases |ds|
  {
    if |ds| == 0 {
      AppendNil(c.errs);
    } else {
      var t := CollectStep(stored, follow, c, ds[0]);
      CollectErrors(stored, follow, t, ds[1..]);
      CollectStepErrors(stored, follow, c, ds[0]);
      FilterMapFront(ds, NotFound(stored), c.errs);
    }
  }

  lemma CollectStepErrors(stored: seq<DeviceMapping>, follow: bool, c: Collected, d: Device)
    ensures CollectStep(stored, follow, c, d).errs ==
            c.errs + (if NotFound(stored)(d).Some? then [NotFound(stored)(d).value] else [])
  {
  }

  /** A found query and its partitions are stored devices. */
  lemma CollectStepStored(stored: seq<DeviceMapping>, follow: bool, c: Collected, d: Device)
    requires AllStored(stored, c.devices)
    ensures AllStored(stored, CollectStep(stored, follow, c, d).devices)
  {
    var f := FindDeviceByMapping(stored, d);
    if f.Some? {
      var l := c.devices + [f.value];
      assert AllStored(stored, l) by {
        var i :| 0 <= i < |stored| && SameMapping(stored[i], d) && f.value == ToDevice(stored[i]);
        assert stored[i] in stored;
        assert IsStored(stored, l[|l| - 1]);
      }
      if follow {
        var subs := FindSubPartition(stored, f.value);
        FollowSubsAdds(stored, l, subs);
        var r := FollowSubs(stored, l, subs);
        forall k | 0 <= k < |r|
          ensures IsStored(stored, r[k])
        {
          if k < |l| {
            assert r[k] == r[..|l|][k];
          }
        }
      }
    }
  }

  /** Every collected device is a stored device. */
  lemma {:induction false} CollectStored(stored: seq<DeviceMapping>, follow: bool, c: Collected, ds: seq<Device>)
    requires AllStored(stored, c.devices)
    ensures AllStored(stored, Collect(stored, follow, c, ds).devices)
    decreases |ds|
  {
    if |ds| > 0 {
      CollectStepStored(stored, follow, c, ds[0]);
      CollectStored(stored, follow, CollectStep(stored, follow, c, ds[0]), ds[1..]);
    }
  }

  /** Joining partitions only appends. */
  lemma {:induction false} FollowSubsGrows(stored: seq<DeviceMapping>, l: seq<Device>, subs: seq<Device>)
    ensures var r := FollowSubs(stored, l, subs);
            |r| >= |l| && r[..|l|] == l
    decreases |subs|
  {
    if |subs| > 0 {
      FollowSubsGrows(stored, l, subs[..|subs| - 1]);
      var p := FollowSubs(stored, l, subs[..|subs| - 1]);
      assert FollowSubs(stored, l, subs)[..|l|] == p[..|l|];
    }
  }

  lemma ListedGrows(a: seq<Device>, b: seq<Device>, x: Device)
    requires Listed(a, x) && |b| >= |a| && b[..|a|] == a
    ensures Listed(b, x)
  {
    var k :| 0 <= k < |a| && SamePaths(a[k], x);
    assert b[k] == a[k];
  }

  /** A query that names a stored device puts a device with its paths in
    * the list, and so do the stored partitions of that disk when asked;
    * the list only grows. */
  lemma CollectStepCovers(stored: seq<DeviceMapping>, follow: bool, c: Collected, d: Device)
    ensures Covered(stored, follow, CollectStep(stored, follow, c, d).devices, d)
  {
    var f := FindDeviceByMapping(stored, d);
    if f.Some? {
      var l := c.devices + [f.value];
      var i :| 0 <= i < |stored| && SameMapping(stored[i], d) && f.value == ToDevice(stored[i]);
      assert SamePaths(l[|c.devices|], d);
      if follow {
        var subs := FindSubPartition(stored, f.value);
        var r := FollowSubs(stored, l, subs);
        FollowSubsGrows(stored, l, subs);
        FollowSubsCovers(stored, l, subs);
        ListedGrows(l, r, d);
        SubsListed(stored, f.value, r);
      } else {
        assert l[..|c.devices|] == c.devices;
      }
    }
  }

  /** Every stored partition of the disk that the joined list covers is
    * listed. */
  lemma SubsListed(stored: seq<DeviceMapping>, p: Device, r: seq<Device>)
    requires forall x :: x in FindSubPartition(stored, p) && FindDeviceByMapping(stored, x).Some? ==> Listed(r, x)
    ensures forall m :: m in stored && m.parent == p.pathOnHost ==> Listed(r, ToDevice(m))
  {
    forall m | m in stored && m.parent == p.pathOnHost
      ensures Listed(r, ToDevice(m))
    {
      assert ToDevice(m) in FindSubPartition(stored, p);
      var i :| 0 <= i < |stored| && stored[i] == m;
      assert SameMapping(stored[i], ToDevice(m));
    }
  }

  /** One query only appends to the list. */
  lemma CollectStepGrows(stored: seq<DeviceMapping>, follow: bool, c: Collected, d: Device)
    ensures var o := CollectStep(stored, follow, c, d);
            |o.devices| >= |c.devices| && o.devices[..|c.devices|] == c.devices
  {
    var f := FindDeviceByMapping(stored, d);
    if f.Some? {
      var l := c.devices + [f.value];
      assert l[..|c.devices|] == c.devices;
      if follow {
        FollowSubsGrows(stored, l, FindSubPartition(stored, f.value));
        PrefixTrans(c.devices, l, CollectStep(stored, follow, c, d).devices);
      }
    }
  }

  /** Collecting only appends to the list. */
  lemma {:induction false} CollectGrows(stored: seq<DeviceMapping>, follow: bool, c: Collected, ds: seq<Device>)
    ensures var o := Collect(stored, follow, c, ds);
            |o.devices| >= |c.devices| && o.devices[..|c.devices|] == c.devices
    decreases |ds|
  {
    if |ds| > 0 {
      var t := CollectStep(stored, follow, c, ds[0]);
      CollectStepGrows(stored, follow, c, ds[0]);
      CollectGrows(stored, follow, t, ds[1..]);
      PrefixTrans(c.devices, t.devices, Collect(stored, follow, c, ds).devices);
    }
  }

  /** Every query that names a stored device is in the list of the
    * collection, and with `--follow-partition` every stored partition of
    * such a disk. */
  lemma {:induction false} CollectCovers(stored: seq<DeviceMapping>, follow: bool, c: Collected, ds: seq<Device>)
    ensures var o := Collect(stored, follow, c, ds);
            forall k :: 0 <= k < |ds| ==> Covered(stored, follow, o.devices, ds[k])
    decreases |ds|
  {
    if |ds| > 0 {
      var t := CollectStep(stored, follow, c, ds[0]);
      var o := Collect(stored, follow, c, ds);
      CollectCovers(stored, follow, t, ds[1..]);
      CollectStepCovers(stored, follow, c, ds[0]);
      CollectGrows(stored, follow, t, ds[1..]);
      CoversShift(stored, follow, t.devices, o.devices, ds);
    }
  }

  /** The step of `CollectCovers`: the head covered in a prefix, and the
    * tail in the whole list. */
  lemma CoversShift(stored: seq<DeviceMapping>, follow: bool, a: seq<Device>, o: seq<Device>, ds: seq<Device>)
    requires |ds| > 0 && Covered(stored, follow, a, ds[0]) && |o| >= |a| && o[..|a|] == a
    requires forall k :: 0 <= k < |ds[1..]| ==> Covered(stored, follow, o, ds[1..][k])
    ensures forall k :: 0 <= k < |ds| ==> Covered(stored, follow, o, ds[k])
  {
    CoveredGrows(stored, follow, a, o, ds[0]);
    forall k | 1 <= k < |ds|
      ensures Covered(stored, follow, o, ds[k])
    {
      assert ds[k] == ds[1..][k - 1];
    }
  }

  /** A query that names a stored device has a listed device with its paths,
    * and with `follow` so has every stored partition of that disk. */
  predicate Covered(stored: seq<DeviceMapping>, follow: bool, l: seq<Device>, d: Device)
  {
    FindDeviceByMapping(stored, d).Some? ==>
      Listed(l, d) && (follow ==> forall m :: m in stored && m.parent == d.pathOnHost ==> Listed(l, ToDevice(m)))
  }

  lemma CoveredGrows(stored: seq<DeviceMapping>, follow: bool, a: seq<Device>, b: seq<Device>, d: Device)
    requires Covered(stored, follow, a, d) && |b| >= |a| && b[..|a|] == a
    ensures Covered(stored, follow, b, d)
  {
    if FindDeviceByMapping(stored, d).Some? {
      ListedGrows(a, b, d);
      if follow {
        forall m | m in stored && m.parent == d.pathOnHost
          ensures Listed(b, ToDevice(m))
        {
          ListedGrows(a, b, ToDevice(m));
        }
      }
    }
  }

  /** Whether a device with the paths of `x` is listed, as the loop over
    * the collected devices finds out. */
  method IsListed(l: seq<Device>, x: Device) returns (found: bool)
    ensures found <==> Listed(l, x)
  {
    found := false;
    var k := 0;
    while k < |l| && !found
      invariant 0 <= k <= |l|
      invariant found ==> Listed(l, x)
      invariant !found ==> forall e :: 0 <= e < k ==> !SamePaths(l[e], x)
    {
      if x.path == l[k].path && x.pathOnHost == l[k].pathOnHost {
        found := true;
      }
      k := k + 1;
    }
  }

  /** The partition loop of `RemoveDevice`. */
  method JoinPartitions(stored: seq<DeviceMapping>, l: seq<Device>, subs: seq<Device>) returns (r: seq<Device>)
    ensures r == FollowSubs(stored, l, subs)
  {
    r := l;
    var j := 0;
    while j < |subs|
      invariant 0 <= j <= |subs|
      invariant r == FollowSubs(stored, l, subs[..j])
    {
      assert subs[..j + 1][..j] == subs[..j];
      var sub := subs[j];
      if FindDeviceByMapping(stored, sub).Some? {
        var found := IsListed(r, sub);
        if !found {
          r := r + [sub];
        }
      }
      j := j + 1;
    }
    assert subs[..j] == subs;
  }

  /** The collecting loop of `RemoveDevice`. */
  method CollectDevices(stored: seq<DeviceMapping>, follow: bool, ds: seq<Device>)
    returns (devices: seq<Device>, errs: seq<string>)
    ensures Collected(devices, errs) == Collect(stored, follow, Collected([], []), ds)
  {
    devices, errs := [], [];
    var i := 0;
    while i < |ds|
      invariant 0 <= i <= |ds|
      invariant Collect(stored, follow, Collected([], []), ds) == Collect(stored, follow, Collected(devices, errs), ds[i..])
    {
      assert ds[i..][1..] == ds[i + 1..];
      devices, errs := CollectOne(stored, follow, devices, errs, ds[i]);
      i := i + 1;
    }
  }

  /** One query of the collecting loop. */
  method CollectOne(stored: seq<DeviceMapping>, follow: bool, devices0: seq<Device>, errs0: seq<string>, d: Device)
    returns (devices: seq<Device>, errs: seq<string>)
    ensures Collected(devices, errs) == CollectStep(stored, follow, Collected(devices0, errs0), d)
  {
    devices, errs := devices0, errs0;
    var nd := FindDeviceByMapping(stored, d);
    if nd.None? {
      errs := errs + [NotAddedError(d)];
    } else {
      devices := devices + [nd.value];
      if follow {
        devices := JoinPartitions(stored, devices, FindSubPartition(stored, nd.value));
      }
    }
  }

  /** The cgroup QoS entries of a removed device are cleared, and an error
    * of that is one more error of the batch. */
  function ClearQos(env: Env, s: DevRun, d: Device): DevRun
  {
    var q := RemoveQosSpec(env, QosRun(s.doc, s.dirty, s.calls, None), d);
    s.(doc := q.doc, dirty := q.dirty, calls := q.calls, errs := if q.err.Some? then s.errs + [q.err.value] else s.errs)
  }

  /** After the driver failed to remove the node: the device goes back into
    * the store; for a block device lsblk is asked again, and its error
    * replaces the driver's (with a second, refused, store), while a whole
    * disk gets its rule back. */
  function Restore(env: Env, use: bool, s: DevRun, d: Device, e: string): DevRun
  {
    var s1 := StoreDevice(s, d, true);
    if d.typ == "c" then Failed(s1, e)
    else
      match env.devType(d.pathOnHost)
      case Err(e2) => StoreDevice(Failed(s1, e2), d, true)
      case Ok(t) => Failed(if t == "disk" then WithRule(use, s1, DeviceRule(env, d)) else s1, e)
  }

  /** For a running container: remove the node and deny it in the cgroup;
    * a refused deny is reported and nothing is undone.  The QoS entries are
    * cleared unless one of the two failed. */
  function Detach(env: Env, use: bool, s: DevRun, d: Device): DevRun
  {
    if !env.running then ClearQos(env, s, d)
    else
      var s1 := Logged(s, RemoveDeviceCall(d));
      match env.driverRemoveDevice(d)
      case Some(e) => Restore(env, use, s1, d, e)
      case None =>
        var s2 := Logged(s1, CgroupCall(d, false));
        match env.cgroup(d, false)
        case Some(e) => Failed(s2, e)
        case None => ClearQos(env, s2, d)
  }

  /** One device of `RemoveDevice`: out of the store, its rule dropped,
    * then `Detach`. */
  function RemoveStep(env: Env, use: bool, s: DevRun, d: Device): DevRun
  {
    match ConfigDevice.UpdateDevice(s.doc.devices, d, false)
    case Err(e) => Failed(s, e)
    case Ok(devs) => Detach(env, use, WithoutRule(use, Stored(s, devs), DeviceRule(env, d)), d)
  }

  /** The removing loop of `RemoveDevice`. */
  function RemoveAll(env: Env, use: bool, s: DevRun, ds: seq<Device>): DevRun
    decreases |ds|
  {
    if |ds| == 0 then s
    else RemoveAll(env, use, RemoveStep(env, use, s, ds[0]), ds[1..])
  }

  /** `RemoveDevice` from the point the store and the udev rules are loaded:
    * the errors of the collection come first, then those of each device. */
  function RemoveDeviceSpec(env: Env, use: bool, s: DevRun, ds: seq<Device>, follow: bool): DevRun
  {
    var c := Collect(s.doc.devices, follow, Collected([], []), ds);
    RemoveAll(env, use, s.(errs := s.errs + c.errs), c.devices)
  }

  lemma RemoveDeviceSpecSplit(env: Env, use: bool, s: DevRun, ds: seq<Device>, follow: bool,
                              devices: seq<Device>, errs: seq<string>)
    requires Collected(devices, errs) == Collect(s.doc.devices, follow, Collected([], []), ds)
    ensures RemoveDeviceSpec(env, use, s, ds, follow) == RemoveAll(env, use, s.(errs := s.errs + errs), devices)
  {
  }

  /** In a store without shared paths, removing a stored device by its
    * record takes out exactly that entry, and storing it again puts the
    * same entry back at the end. */
  lemma ReAddAfterRemove(devs: seq<DeviceMapping>, i: nat)
    requires DistinctDevices(devs) && i < |devs|
    ensures ConfigDevice.UpdateDevice(devs, ToDevice(devs[i]), false) == Ok(RemoveAt(devs, i))
    ensures ConfigDevice.UpdateDevice(RemoveAt(devs, i), ToDevice(devs[i]), true) == Ok(RemoveAt(devs, i) + [devs[i]])
  {
    var d := ToDevice(devs[i]);
    assert QueryMatches(d, devs[i]);
    assert forall j :: 0 <= j < i ==> !QueryMatches(d, devs[j]);
    assert DeviceIndexInArray(devs, d) == Some(i);
    var r := RemoveAt(devs, i);
    assert forall j :: 0 <= j < |r| ==> !Conflicts(r[j], d) by {
      forall j | 0 <= j < |r|
        ensures !Conflicts(r[j], d)
      {
        if j < i {
          assert r[j] == devs[j];
        } else {
          assert r[j] == devs[j + 1];
        }
      }
    }
    ToDeviceRoundTrip(devs[i]);
  }

  /** A removal the store accepts goes on with `Detach`. */
  lemma RemoveStepStored(env: Env, use: bool, s: DevRun, d: Device, devs: seq<DeviceMapping>)
    requires ConfigDevice.UpdateDevice(s.doc.devices, d, false) == Ok(devs)
    ensures RemoveStep(env, use, s, d) == Detach(env, use, WithoutRule(use, Stored(s, devs), DeviceRule(env, d)), d)
  {
  }

  /** A restore that puts the device back once (the second store, when
    * there is one, being refused) reports exactly one error. */
  lemma RestoreOnce(env: Env, use: bool, s: DevRun, d: Device, e: string, back: seq<DeviceMapping>)
    requires ConfigDevice.UpdateDevice(s.doc.devices, d, true) == Ok(back)
    requires ConfigDevice.UpdateDevice(back, d, true).Err?
    ensures var o := Restore(env, use, s, d, e);
            o.doc == s.doc.(devices := back) && |o.errs| == |s.errs| + 1 && o.errs[..|s.errs|] == s.errs
  {
    var s1 := Stored(s, back);
    assert StoreDevice(s, d, true) == s1;
    if d.typ != "c" && env.devType(d.pathOnHost).Err? {
      var f := Failed(s1, env.devType(d.pathOnHost).msg);
      assert StoreDevice(f, d, true) == f;
      assert f.errs[..|s.errs|] == s.errs;
    } else {
      assert (s1.errs + [e])[..|s.errs|] == s.errs;
    }
  }

  /** When the driver cannot remove the node of a stored device, the entry
    * is stored again (at the end of the list) and one error is reported;
    * the QoS entries stay. */
  lemma RemoveStepDriverFails(env: Env, use: bool, s: DevRun, i: nat)
    requires DistinctDevices(s.doc.devices) && i < |s.doc.devices|
    requires env.running && env.driverRemoveDevice(ToDevice(s.doc.devices[i])).Some?
    ensures var o := RemoveStep(env, use, s, ToDevice(s.doc.devices[i]));
            o.doc == s.doc.(devices := RemoveAt(s.doc.devices, i) + [s.doc.devices[i]]) &&
            |o.errs| == |s.errs| + 1 && o.errs[..|s.errs|] == s.errs
  {
    var devs := s.doc.devices;
    var d := ToDevice(devs[i]);
    ReAddAfterRemove(devs, i);
    var back := RemoveAt(devs, i) + [devs[i]];
    assert ConfigDevice.UpdateDevice(back, d, true).Err? by {
      assert Conflicts(back[|back| - 1], d);
    }
    var w := WithoutRule(use, Stored(s, RemoveAt(devs, i)), DeviceRule(env, d));
    RemoveStepStored(env, use, s, d, RemoveAt(devs, i));
    var w1 := Logged(w, RemoveDeviceCall(d));
    assert Detach(env, use, w, d) == Restore(env, use, w1, d, env.driverRemoveDevice(d).value);
    RestoreOnce(env, use, w1, d, env.driverRemoveDevice(d).value, back);
  }

  /** When the cgroup refuses to deny a removed node, the entry stays out of
    * the store, its QoS entries stay, and one error is reported. */
  lemma RemoveStepDenyFails(env: Env, use: bool, s: DevRun, i: nat)
    requires DistinctDevices(s.doc.devices) && i < |s.doc.devices|
    requires var d := ToDevice(s.doc.devices[i]);
             env.running && env.driverRemoveDevice(d).None? && env.cgroup(d, false).Some?
    ensures var d := ToDevice(s.doc.devices[i]);
            var o := RemoveStep(env, use, s, d);
            o.doc == s.doc.(devices := RemoveAt(s.doc.devices, i)) &&
            o.errs == s.errs + [env.cgroup(d, false).value] &&
            o.calls == s.calls + [RemoveDeviceCall(d), CgroupCall(d, false)]
  {
    ReAddAfterRemove(s.doc.devices, i);
  }

  /** One kind of clearing keeps what `QosKept` names. */
  lemma RemoveQosKindKept(env: Env, s: QosRun, d: Device, t: QosType)
    ensures QosKept(RemoveQosKind(env, s, d, t).doc, s.doc, d)
  {
    if s.err.None? {
      RemoveQosKindEffect(env, s, d, t);
    }
  }

  /** ... and so does clearing any number of kinds. */
  lemma {:induction false} RemoveQosKindsKept(env: Env, s: QosRun, d: Device, ks: seq<QosType>)
    ensures QosKept(RemoveQosKinds(env, s, d, ks).doc, s.doc, d)
    decreases |ks|
  {
    if |ks| > 0 {
      var s1 := RemoveQosKind(env, s, d, ks[0]);
      RemoveQosKindKept(env, s, d, ks[0]);
      RemoveQosKindsKept(env, s1, d, ks[1..]);
    }
  }

  /** Clearing the QoS entries of a device keeps what `QosKept` names. */
  lemma ClearQosKept(env: Env, s: DevRun, d: Device)
    ensures QosKept(ClearQos(env, s, d).doc, s.doc, d)
  {
    RemoveQosKindsKept(env, QosRun(s.doc, s.dirty, s.calls, None), d, RemovalOrder);
  }

  /** A detach whose removal and deny both succeed ends in `ClearQos`. */
  lemma DetachClears(env: Env, use: bool, w: DevRun, d: Device)
    requires env.running ==> env.driverRemoveDevice(d).None? && env.cgroup(d, false).None?
    ensures Detach(env, use, w, d) ==
            ClearQos(env, if env.running then Logged(Logged(w, RemoveDeviceCall(d)), CgroupCall(d, false)) else w, d)
  {
  }

  /** A restore never makes two stored devices share a path. */
  lemma RestoreKeepsDistinct(env: Env, use: bool, s: DevRun, d: Device, e: string)
    requires DistinctDevices(s.doc.devices)
    ensures DistinctDevices(Restore(env, use, s, d, e).doc.devices)
  {
    var s1 := StoreDevice(s, d, true);
    StoreKeepsDistinct(s, d);
    if d.typ != "c" {
      match env.devType(d.pathOnHost)
      case Err(e2) => StoreKeepsDistinct(Failed(s1, e2), d);
      case Ok(t) =>
    }
  }

  lemma StoreKeepsDistinct(s: DevRun, d: Device)
    requires DistinctDevices(s.doc.devices)
    ensures DistinctDevices(StoreDevice(s, d, true).doc.devices)
  {
    UpdateDeviceKeepsDistinct(s.doc.devices, d, true);
  }

  /** Neither does any detach. */
  lemma DetachKeepsDistinct(env: Env, use: bool, w: DevRun, d: Device)
    requires DistinctDevices(w.doc.devices)
    ensures DistinctDevices(Detach(env, use, w, d).doc.devices)
  {
    if !env.running {
      ClearQosKept(env, w, d);
    } else {
      var w1 := Logged(w, RemoveDeviceCall(d));
      if env.driverRemoveDevice(d).Some? {
        RestoreKeepsDistinct(env, use, w1, d, env.driverRemoveDevice(d).value);
      } else if env.cgroup(d, false).None? {
        ClearQosKept(env, Logged(w1, CgroupCall(d, false)), d);
      }
    }
  }

  /** When the node is gone (or the container is not running), the entry
    * is out of the store and is no longer found by its paths, and only the
    * device's own QoS entries were cleared. */
  lemma RemoveStepClean(env: Env, use: bool, s: DevRun, i: nat)
    requires DistinctDevices(s.doc.devices) && i < |s.doc.devices|
    requires var d := ToDevice(s.doc.devices[i]);
             env.running ==> env.driverRemoveDevice(d).None? && env.cgroup(d, false).None?
    ensures var d := ToDevice(s.doc.devices[i]);
            var o := RemoveStep(env, use, s, d);
            QosKept(o.doc, s.doc.(devices := RemoveAt(s.doc.devices, i)), d) &&
            (d.pathOnHost != "" && d.path != "" ==> FindDeviceByMapping(o.doc.devices, d).None?)
  {
    var d := ToDevice(s.doc.devices[i]);
    ReAddAfterRemove(s.doc.devices, i);
    var w := WithoutRule(use, Stored(s, RemoveAt(s.doc.devices, i)), DeviceRule(env, d));
    RemoveStepStored(env, use, s, d, RemoveAt(s.doc.devices, i));
    DetachClears(env, use, w, d);
    var w2 := if env.running then Logged(Logged(w, RemoveDeviceCall(d)), CgroupCall(d, false)) else w;
    ClearQosKept(env, w2, d);
    assert w2.doc == s.doc.(devices := RemoveAt(s.doc.devices, i));
    if d.pathOnHost != "" && d.path != "" {
      RemoveThenNotFound(s.doc.devices, d);
    }
  }

  /** Removing a device never makes two stored devices share a path. */
  lemma RemoveStepKeepsDistinct(env: Env, use: bool, s: DevRun, d: Device)
    requires DistinctDevices(s.doc.devices)
    ensures DistinctDevices(RemoveStep(env, use, s, d).doc.devices)
  {
    var u := ConfigDevice.UpdateDevice(s.doc.devices, d, false);
    UpdateDeviceKeepsDistinct(s.doc.devices, d, false);
    if u.Ok? {
      RemoveStepStored(env, use, s, d, u.value);
      DetachKeepsDistinct(env, use, WithoutRule(use, Stored(s, u.value), DeviceRule(env, d)), d);
    }
  }

  /** ... and neither does the whole batch. */
  lemma {:induction false} RemoveAllKeepsDistinct(env: Env, use: bool, s: DevRun, ds: seq<Device>)
    requires DistinctDevices(s.doc.devices)
    ensures DistinctDevices(RemoveAll(env, use, s, ds).doc.devices)
    decreases |ds|
  {
    if |ds| > 0 {
      RemoveStepKeepsDistinct(env, use, s, ds[0]);
      RemoveAllKeepsDistinct(env, use, RemoveStep(env, use, s, ds[0]), ds[1..]);
    }
  }

  /** `ClearQos` on the store. */
  method ClearQosOne(cfg: ContainerHookConfig, ctrl: Controller, env: Env, d: Device,
                     errs0: seq<string>, calls0: seq<Call>)
    returns (errs: seq<string>, calls: seq<Call>)
    modifies cfg
    ensures DevState(cfg, ctrl, errs, calls) ==
            ClearQos(env, DevRun(old(cfg.Doc()), old(cfg.dirty), ctrl.rules, ctrl.dirty, errs0, calls0), d)
  {
    var err;
    calls, err := RemoveQos(cfg, env, d, calls0);
    errs := if err.Some? then errs0 + [err.value] else errs0;
  }

  /** `Restore` on the store and the controller. */
  method RestoreOne(cfg: ContainerHookConfig, ctrl: Controller, env: Env, d: Device, e: string,
                    errs0: seq<string>, calls: seq<Call>)
    returns (errs: seq<string>)
    requires |env.containerID| >= 8 && (ctrl.useUdevd ==> LongIds(ctrl.rules))
    modifies cfg, ctrl
    ensures DevState(cfg, ctrl, errs, calls) ==
            Restore(env, ctrl.useUdevd, DevRun(old(cfg.Doc()), old(cfg.dirty), old(ctrl.rules), old(ctrl.dirty), errs0, calls), d, e)
    ensures ctrl.useUdevd ==> LongIds(ctrl.rules)
  {
    errs := errs0;
    ghost var s0 := DevState(cfg, ctrl, errs, calls);
    var _ := cfg.UpdateDevice(d, true);
    assert DevState(cfg, ctrl, errs, calls) == StoreDevice(s0, d, true);
    if d.typ != "c" {
      var stop;
      errs, stop := TypeLookup(cfg, ctrl, env, d, true, errs, calls);
      if stop {
        return;
      }
    }
    errs := errs + [e];
  }

  /** `Detach` on the store and the controller. */
  method DetachOne(cfg: ContainerHookConfig, ctrl: Controller, env: Env, d: Device,
                   errs0: seq<string>, calls0: seq<Call>)
    returns (errs: seq<string>, calls: seq<Call>)
    requires |env.containerID| >= 8 && (ctrl.useUdevd ==> LongIds(ctrl.rules))
    modifies cfg, ctrl
    ensures DevState(cfg, ctrl, errs, calls) ==
            Detach(env, ctrl.useUdevd, DevRun(old(cfg.Doc()), old(cfg.dirty), old(ctrl.rules), old(ctrl.dirty), errs0, calls0), d)
    ensures ctrl.useUdevd ==> LongIds(ctrl.rules)
  {
    errs, calls := errs0, calls0;
    if env.running {
      calls := calls + [RemoveDeviceCall(d)];
      var de := env.driverRemoveDevice(d);
      if de.Some? {
        errs := RestoreOne(cfg, ctrl, env, d, de.value, errs, calls);
        return;
      }
      calls := calls + [CgroupCall(d, false)];
      var ce := env.cgroup(d, false);
      if ce.Some? {
        errs := errs + [ce.value];
        return;
      }
    }
    errs, calls := ClearQosOne(cfg, ctrl, env, d, errs, calls);
  }

  /** One device of `RemoveDevice` on the store and the controller. */
  method RemoveOne(cfg: ContainerHookConfig, ctrl: Controller, env: Env, d: Device,
                   errs0: seq<string>, calls0: seq<Call>)
    returns (errs: seq<string>, calls: seq<Call>)
    requires |env.containerID| >= 8 && (ctrl.useUdevd ==> LongIds(ctrl.rules))
    modifies cfg, ctrl
    ensures DevState(cfg, ctrl, errs, calls) ==
            RemoveStep(env, ctrl.useUdevd, DevRun(old(cfg.Doc()), old(cfg.dirty), old(ctrl.rules), old(ctrl.dirty), errs0, calls0), d)
    ensures ctrl.useUdevd ==> LongIds(ctrl.rules)
  {
    errs, calls := errs0, calls0;
    var e := cfg.UpdateDevice(d, false);
    if e.Some? {
      errs := errs + [e.value];
      return;
    }
    if ctrl.useUdevd {
      LongIdsKept(ctrl.rules, DeviceRule(env, d));
    }
    ctrl.RemoveRule(DeviceRule(env, d));
    errs, calls := DetachOne(cfg, ctrl, env, d, errs, calls);
  }

  /** The removing loop of `RemoveDevice` on the store and the controller. */
  method RemoveLoop(cfg: ContainerHookConfig, ctrl: Controller, env: Env, ds: seq<Device>, errs0: seq<string>)
    returns (errs: seq<string>, calls: seq<Call>)
    requires |env.containerID| >= 8 && (ctrl.useUdevd ==> LongIds(ctrl.rules))
    modifies cfg, ctrl
    ensures DevState(cfg, ctrl, errs, calls) ==
            RemoveAll(env, ctrl.useUdevd, DevRun(old(cfg.Doc()), old(cfg.dirty), old(ctrl.rules), old(ctrl.dirty), errs0, []), ds)
  {
    ghost var whole := RemoveAll(env, ctrl.useUdevd, DevState(cfg, ctrl, errs0, []), ds);
    errs, calls := errs0, [];
    var i := 0;
    while i < |ds|
      invariant 0 <= i <= |ds|
      invariant whole == RemoveAll(env, ctrl.useUdevd, DevState(cfg, ctrl, errs, calls), ds[i..])
      invariant ctrl.useUdevd ==> LongIds(ctrl.rules)
    {
      assert ds[i..][1..] == ds[i + 1..];
      errs, calls := RemoveOne(cfg, ctrl, env, ds[i], errs, calls);
      i := i + 1;
    }
  }

  /** `RemoveDevice` from the point the store and the udev rules are
    * loaded: collect, then remove, then join the errors. */
  method RemoveDevice(cfg: ContainerHookConfig, ctrl: Controller, env: Env, devices: seq<Device>, follow: bool)
    returns (err: Option<string>, calls: seq<Call>)
    requires |env.containerID| >= 8 && (ctrl.useUdevd ==> LongIds(ctrl.rules))
    modifies cfg, ctrl
    ensures var o := RemoveDeviceSpec(env, ctrl.useUdevd, DevRun(old(cfg.Doc()), old(cfg.dirty), old(ctrl.rules), old(ctrl.dirty), [], []),
                                      devices, follow);
            DevState(cfg, ctrl, o.errs, calls) == o && err == Aggregate(o.errs)
  {
    ghost var s0 := DevState(cfg, ctrl, [], []);
    var ds, cerrs := CollectDevices(cfg.devices, follow, devices);
    RemoveDeviceSpecSplit(env, ctrl.useUdevd, s0, devices, follow, ds, cerrs);
    assert s0.(errs := s0.errs + cerrs) == DevState(cfg, ctrl, cerrs, []);
    var errs;
    errs, calls := RemoveLoop(cfg, ctrl, env, ds, cerrs);
    err := Aggregate(errs);
  }
}

// The prestart phase (hooks/isulad-hooks/prestart.go): the actions that
// re-apply a container's stored devices, binds, QoS values, network
// interfaces, routes and kernel modules each time it starts, in a fixed
// order, stopping at the first action that fails.  The store is the
// `ContainerHookConfig` the hook loaded; what was asked of the outside world
// is recorded as `Step`s.
module Prestart {
  import opened Wrappers
  import opened Strs
  import opened Seqs
  import opened Paths
  import opened DeviceTypes
  import opened ConfigDevice
  import opened HookConfig
  import opened UdevRules
  import opened UdevController
  import opened OciSpec
  import opened NetworkTypes
  import opened Hooks
  import DeviceParse
  import LibDevice
  import LibNic
  import LibRoute
  import UtilsHooks
  import Transfer
  import ContainerWork

  /** The store, the calls made so far, and the error that stopped the
    * phase. */
  datatype Run = Run(doc: HookDoc, dirty: bool, steps: seq<Step>, err: Option<string>)

  /** The store as a `Run`, for the methods. */
  function State(cfg: ContainerHookConfig, steps: seq<Step>, err: Option<string>): Run
    reads cfg
  {
    Run(cfg.Doc(), cfg.dirty, steps, err)
  }

  // ---------------------------------------------------------------------
  // A loop that stops at the first failing call

  /** Whether the call for an item fails. */
  function Fails<T>(answer: T -> Option<string>): T -> bool
  {
    x => answer(x).Some?
  }

  /** One call per item, in order, until a call fails; its error is the
    * loop's error.  The store is not touched. */
  function Calls<T>(xs: seq<T>, call: T -> Step, answer: T -> Option<string>, s: Run): (r: Run)
    ensures r.doc == s.doc && r.dirty == s.dirty
    decreases |xs|
  {
    if |xs| == 0 then s
    else
      var t := Calls(xs[..|xs| - 1], call, answer, s);
      if t.err.Some? then t
      else t.(steps := t.steps + [call(xs[|xs| - 1])], err := answer(xs[|xs| - 1]))
  }

  /** Without a failure every call is made. */
  lemma {:induction false} CallsAllSucceed<T>(xs: seq<T>, call: T -> Step, answer: T -> Option<string>, s: Run)
    requires s.err.None? && forall j :: 0 <= j < |xs| ==> answer(xs[j]).None?
    ensures Calls(xs, call, answer, s) == s.(steps := s.steps + Map(xs, call))
    decreases |xs|
  {
    if |xs| > 0 {
      var k := |xs| - 1;
      var pre := xs[..k];
      CallsAllSucceed(pre, call, answer, s);
      MapSnoc(pre, xs[k], call);
      assert pre + [xs[k]] == xs;
    }
  }

  /** With a first failure at `i`, the calls up to it are made and its
    * error is returned. */
  lemma CallsFailAt<T>(xs: seq<T>, i: nat, call: T -> Step, answer: T -> Option<string>, s: Run)
    requires s.err.None? && i < |xs| && answer(xs[i]).Some?
    requires forall j :: 0 <= j < i ==> answer(xs[j]).None?
    ensures Calls(xs, call, answer, s) == s.(steps := s.steps + Map(xs[..i + 1], call), err := answer(xs[i]))
  {
    CallsAllSucceed(xs[..i], call, answer, s);
    CallsSnoc(xs, i, call, answer, s);
    MapSnoc(xs[..i], xs[i], call);
    assert xs[..i] + [xs[i]] == xs[..i + 1];
    Assoc(s.steps, Map(xs[..i], call), [call(xs[i])]);
    CallsStay(xs, i + 1, call, answer, s);
  }

  /** The calls made are those up to and including the first failing one,
    * whose error is returned; without a failure every call is made. */
  lemma CallsStopAtFirstFailure<T>(xs: seq<T>, call: T -> Step, answer: T -> Option<string>, s: Run)
    requires s.err.None?
    ensures var r := Calls(xs, call, answer, s);
            match FirstIndex(xs, Fails(answer))
            case None => r == s.(steps := s.steps + Map(xs, call))
            case Some(i) => r == s.(steps := s.steps + Map(xs[..i + 1], call), err := answer(xs[i]))
  {
    match FirstIndex(xs, Fails(answer))
    case None =>
      forall j | 0 <= j < |xs|
        ensures answer(xs[j]).None?
      {
        assert !Fails(answer)(xs[j]);
      }
      CallsAllSucceed(xs, call, answer, s);
    case Some(i) =>
      assert Fails(answer)(xs[i]);
      forall j | 0 <= j < i
        ensures answer(xs[j]).None?
      {
        assert !Fails(answer)(xs[j]);
      }
      CallsFailAt(xs, i, call, answer, s);
  }

  /** One more item of the loop. */
  lemma CallsSnoc<T>(xs: seq<T>, i: nat, call: T -> Step, answer: T -> Option<string>, s: Run)
    requires i < |xs|
    ensures var t := Calls(xs[..i], call, answer, s);
            Calls(xs[..i + 1], call, answer, s) ==
              if t.err.Some? then t else t.(steps := t.steps + [call(xs[i])], err := answer(xs[i]))
  {
    assert xs[..i + 1][..i] == xs[..i];
  }

  /** After a failure the loop makes no more calls. */
  lemma {:induction false} CallsStay<T>(xs: seq<T>, i: nat, call: T -> Step, answer: T -> Option<string>, s: Run)
    requires i <= |xs| && Calls(xs[..i], call, answer, s).err.Some?
    ensures Calls(xs, call, answer, s) == Calls(xs[..i], call, answer, s)
    decreases |xs| - i
  {
    if i < |xs| {
      CallsSnoc(xs, i, call, answer, s);
      CallsStay(xs, i + 1, call, answer, s);
    } else {
      assert xs[..i] == xs;
    }
  }

  /** The loop over the items: each call is made and answered in turn. */
  method MakeCalls<T>(xs: seq<T>, call: T -> Step, answer: T -> Option<string>, steps0: seq<Step>, ghost s: Run)
    returns (steps: seq<Step>, err: Option<string>)
    requires s.steps == steps0 && s.err.None?
    ensures Calls(xs, call, answer, s) == s.(steps := steps, err := err)
  {
    steps, err := steps0, None;
    var i := 0;
    while i < |xs| && err.None?
      invariant 0 <= i <= |xs|
      invariant Calls(xs[..i], call, answer, s) == s.(steps := steps, err := err)
    {
      CallsSnoc(xs, i, call, answer, s);
      steps := steps + [call(xs[i])];
      err := answer(xs[i]);
      i := i + 1;
    }
    if err.Some? {
      CallsStay(xs, i, call, answer, s);
    } else {
      assert xs[..i] == xs;
    }
  }

  // ---------------------------------------------------------------------
  // SharePath

  /** The transfer base: the container's master directory, shared at
    * "/.sharedpath" under its root file system. */
  function SharedBind(st: HookState): Bind
  {
    Bind(Transfer.GetContainerSpecDir(st.id), true, "", JoinPath([st.root, Transfer.SlavePath]), "", 0, 0)
  }

  /** `SharePath`: prepare the host's shared directory, then mount the
    * transfer base into the container. */
  function SharePath(env: HookEnv, s: Run): (r: Run)
    ensures r.doc == s.doc && r.dirty == s.dirty
  {
    if env.prepareHostPath.Some? then s.(err := env.prepareHostPath)
    else
      var b := SharedBind(env.state);
      s.(steps := s.steps + [TransferBase(b)], err := env.transferBase(b))
  }

  /** The transfer base of a container whose id is a plain name is its
    * directory "/.sharedpath/master/<id>", a directory. */
  lemma SharedBindPaths(st: HookState)
    requires PlainName(st.id)
    ensures SharedBind(st).hostPath == Transfer.MasterPath + "/" + st.id && SharedBind(st).isDir
  {
    Transfer.SpecDirOf(st.id);
  }

  // ---------------------------------------------------------------------
  // AdjustUserns

  /** The call that sets one sysctl in the container. */
  function SysctlCall(): ((string, string)) -> Step
  {
    (kv: (string, string)) => Sysctl(kv.0, kv.1)
  }

  function SysctlAnswer(env: HookEnv): ((string, string)) -> Option<string>
  {
    (kv: (string, string)) => env.sysctl(kv.0, kv.1)
  }

  /** A tmpfs mounted at /dev, which the remount replaces. */
  predicate IsDevTmpfs(m: Mount)
  {
    m.destination == "/dev" && m.typ == "tmpfs" && m.source == "tmpfs"
  }

  /** A path the remount binds back: any path containing "/dev" other than
    * /dev itself. */
  predicate BindsBack(p: string)
  {
    p != "/dev" && Contains(p, "/dev")
  }

  /** The container's /dev and the place its old content is moved to. */
  function DevDir(root: string): string
  {
    JoinPath([root, "/dev"])
  }

  function BakDir(root: string): string
  {
    JoinPath([root, "/.dev"])
  }

  /** `/dev/full` (1:7) and `/dev/tty` (5:0), which runc creates and the
    * remount hides; they are appended to the spec's devices. */
  const RuncDevices: seq<LinuxDevice> := [LinuxDevice("c", "/dev/full", 1, 7), LinuxDevice("c", "/dev/tty", 5, 0)]

  /** The links made in the new /dev: target, then name. */
  const DevLinks: seq<(string, string)> :=
    [("/proc/self/fd", "/dev/fd"), ("/proc/self/fd/0", "/dev/stdin"), ("/proc/self/fd/1", "/dev/stdout"),
     ("/proc/self/fd/2", "/dev/stderr"), ("pts/ptmx", "/dev/ptmx"), ("/proc/kcore", "/dev/core")]

  /** The bind of the moved node of a path back into the new /dev. */
  function BindBack(root: string, p: string, owner: (int, int)): ContainerWork.MountMsg
  {
    ContainerWork.MountMsg(JoinPath([BakDir(root), Base(p)]), JoinPath([DevDir(root), Base(p)]), "bind", "bind", owner.0, owner.1)
  }

  function MountBinds(root: string, ms: seq<Mount>, owner: (int, int)): seq<ContainerWork.MountMsg>
  {
    if |ms| == 0 then []
    else (if BindsBack(ms[0].destination) then [BindBack(root, ms[0].destination, owner)] else []) +
         MountBinds(root, ms[1..], owner)
  }

  function DeviceBinds(root: string, ds: seq<LinuxDevice>, owner: (int, int)): seq<ContainerWork.MountMsg>
  {
    if |ds| == 0 then []
    else (if BindsBack(ds[0].path) then [BindBack(root, ds[0].path, owner)] else []) +
         DeviceBinds(root, ds[1..], owner)
  }

  function LinkMounts(root: string, owner: (int, int)): seq<ContainerWork.MountMsg>
  {
    Map(DevLinks, (l: (string, string)) => ContainerWork.MountMsg(l.0, JoinPath([root, l.1]), "link", "", owner.0, owner.1))
  }

  /** The options of the new /dev: the mount's own, "dev", and the owner
    * IDs that have a mapping. */
  function DevOptions(m: Mount, ids: (int, int)): string
  {
    Join(m.options + ["dev"] + (if ids.0 != -1 then ["uid=" + IntToString(ids.0)] else []) +
         (if ids.1 != -1 then ["gid=" + IntToString(ids.1)] else []), ',')
  }

  /** The mounts of the /dev remount for one tmpfs /dev, with the spec's
    * devices as they are then: move the old /dev aside, mount a tmpfs that
    * allows device nodes, remount it, bind back the mount points and the
    * devices below /dev, and make the links. */
  function DevRemount(root: string, spec: Spec, m: Mount, devices: seq<LinuxDevice>): seq<ContainerWork.MountMsg>
  {
    var owner := UtilsHooks.OwnerIDs(spec);
    [ContainerWork.MountMsg(DevDir(root), BakDir(root), "move", "", 0, 0),
     ContainerWork.MountMsg(m.typ, DevDir(root), m.typ, DevOptions(m, UtilsHooks.GetUIDGid(spec)), 0, 0),
     ContainerWork.MountMsg(DevDir(root), DevDir(root), m.typ, Join(m.options + ["remount"], ','), 0, 0)] +
    MountBinds(root, spec.mounts, owner) + DeviceBinds(root, devices, owner) + LinkMounts(root, owner)
  }

  function MountSteps(ms: seq<ContainerWork.MountMsg>): seq<Step>
  {
    Map(ms, (m: ContainerWork.MountMsg) => DriverMount(m))
  }

  /** The spec's devices after the remounts for the mounts: the runc
    * devices are appended once per tmpfs /dev. */
  function Grown(devices: seq<LinuxDevice>, ms: seq<Mount>): seq<LinuxDevice>
    decreases |ms|
  {
    if |ms| == 0 then devices
    else Grown(devices, ms[..|ms| - 1]) + (if IsDevTmpfs(ms[|ms| - 1]) then RuncDevices else [])
  }

  /** The mounts of the remount for one mount, given the devices as they
    * are then. */
  function RemountOf(root: string, spec: Spec): (Mount, seq<LinuxDevice>) -> seq<Step>
  {
    (m: Mount, ds: seq<LinuxDevice>) => if IsDevTmpfs(m) then MountSteps(DevRemount(root, spec, m, ds)) else []
  }

  /** The mounts the remount makes for the mounts, in order. */
  function RemountSteps(ms: seq<Mount>, devices: seq<LinuxDevice>, one: (Mount, seq<LinuxDevice>) -> seq<Step>): seq<Step>
    decreases |ms|
  {
    if |ms| == 0 then []
    else RemountSteps(ms[..|ms| - 1], devices, one) + one(ms[|ms| - 1], Grown(devices, ms))
  }

  /** `AdjustUserns`: nothing without ID mappings; otherwise the sysctls,
    * stopping at the first failure, then the storage path, and, outside
    * iSulad's storage, the /dev remount, whose failures are only logged. */
  function AdjustUsernsSpec(env: HookEnv, spec: Spec, s: Run): (r: Run)
    ensures r.doc == s.doc && r.dirty == s.dirty
  {
    if |spec.uidMappings| == 0 && |spec.gidMappings| == 0 then s
    else
      var t := Calls(spec.sysctl, SysctlCall(), SysctlAnswer(env), s);
      if t.err.Some? then t
      else
        match env.storagePath
        case Err(e) => t.(err := Some(e))
        case Ok(p) =>
          if Contains(p, "isulad") then t
          else t.(steps := t.steps + RemountSteps(spec.mounts, spec.devices, RemountOf(env.state.root, spec)))
  }

  /** Without mappings nothing happens; a failing sysctl ends the action
    * after the sysctls before it, with no mount made; otherwise only the
    * storage path can fail it, whatever the mounts answer. */
  lemma AdjustUsernsOutcome(env: HookEnv, spec: Spec, s: Run)
    requires s.err.None?
    ensures |spec.uidMappings| == 0 && |spec.gidMappings| == 0 ==> AdjustUsernsSpec(env, spec, s) == s
    ensures (|spec.uidMappings| > 0 || |spec.gidMappings| > 0) ==>
              var r := AdjustUsernsSpec(env, spec, s);
              match FirstIndex(spec.sysctl, Fails(SysctlAnswer(env)))
              case Some(i) =>
                r == s.(steps := s.steps + Map(spec.sysctl[..i + 1], SysctlCall()), err := SysctlAnswer(env)(spec.sysctl[i]))
              case None =>
                |r.steps| >= |s.steps| + |spec.sysctl| &&
                r.steps[..|s.steps| + |spec.sysctl|] == s.steps + Map(spec.sysctl, SysctlCall()) &&
                r.err == (if env.storagePath.Err? then Some(env.storagePath.msg) else None)
  {
    CallsStopAtFirstFailure(spec.sysctl, SysctlCall(), SysctlAnswer(env), s);
  }

  /** `AdjustUserns` as the loops run it; `devices` is the spec's device
    * list afterwards. */
  method AdjustUserns(env: HookEnv, spec: Spec, steps0: seq<Step>, ghost s: Run)
    returns (steps: seq<Step>, err: Option<string>, devices: seq<LinuxDevice>)
    requires s.steps == steps0 && s.err.None?
    ensures AdjustUsernsSpec(env, spec, s) == s.(steps := steps, err := err)
    ensures err.None? ==> devices == spec.devices || devices == Grown(spec.devices, spec.mounts)
  {
    steps, err, devices := steps0, None, spec.devices;
    if |spec.uidMappings| == 0 && |spec.gidMappings| == 0 {
      return;
    }
    steps, err := MakeCalls(spec.sysctl, SysctlCall(), SysctlAnswer(env), steps, s);
    if err.Some? {
      return;
    }
    if env.storagePath.Err? {
      err := Some(env.storagePath.msg);
      return;
    }
    if Contains(env.storagePath.value, "isulad") {
      return;
    }
    steps, devices := Remount(spec.mounts, spec.devices, RemountOf(env.state.root, spec), steps);
  }

  /** One more mount of the remount loop. */
  lemma RemountSnoc(ms: seq<Mount>, devices: seq<LinuxDevice>, one: (Mount, seq<LinuxDevice>) -> seq<Step>, i: nat)
    requires i < |ms|
    ensures Grown(devices, ms[..i + 1]) == Grown(devices, ms[..i]) + (if IsDevTmpfs(ms[i]) then RuncDevices else [])
    ensures RemountSteps(ms[..i + 1], devices, one) ==
            RemountSteps(ms[..i], devices, one) + one(ms[i], Grown(devices, ms[..i + 1]))
  {
    assert ms[..i + 1][..i] == ms[..i];
  }

  /** The remount loop over the spec's mounts; `devices` grows as the
    * mounts are remounted. */
  method Remount(ms: seq<Mount>, devices0: seq<LinuxDevice>, one: (Mount, seq<LinuxDevice>) -> seq<Step>, steps0: seq<Step>)
    returns (steps: seq<Step>, devices: seq<LinuxDevice>)
    ensures steps == steps0 + RemountSteps(ms, devices0, one)
    ensures devices == Grown(devices0, ms)
  {
    steps, devices := steps0, devices0;
    var i := 0;
    while i < |ms|
      invariant 0 <= i <= |ms|
      invariant steps == steps0 + RemountSteps(ms[..i], devices0, one)
      invariant devices == Grown(devices0, ms[..i])
    {
      RemountSnoc(ms, devices0, one, i);
      if IsDevTmpfs(ms[i]) {
        devices := devices + RuncDevices;
      }
      assert devices == Grown(devices0, ms[..i + 1]);
      ghost var pre := RemountSteps(ms[..i], devices0, one);
      assert RemountSteps(ms[..i + 1], devices0, one) == pre + one(ms[i], devices);
      assert steps0 + pre + one(ms[i], devices) == steps0 + (pre + one(ms[i], devices));
      steps := steps + one(ms[i], devices);
      i := i + 1;
    }
    assert ms[..i] == ms;
  }

  // ---------------------------------------------------------------------
  // AddDevices

  /** The device a stored entry, re-rooted under the root file system,
    * resolves to now. */
  function DeviceOf(env: HookEnv, m: DeviceMapping): Result<Device>
  {
    DeviceParse.ParseDevice(CalcPathForDevice(env.state.root, m), env.fromPath)
  }

  /** The stored entry with the numbers of the device it resolves to. */
  function Renumbered(m: DeviceMapping, d: Device): DeviceMapping
  {
    m.(major := d.major, minor := d.minor)
  }

  /** The udev rule of a stored disk. */
  function DiskRule(st: HookState, m: DeviceMapping): Rule
  {
    Rule(m.pathOnHost, m.pathInContainer, st.id)
  }

  /** What the rule file holds when it is loaded. */
  function LoadedRules(file: RuleFile): Result<seq<Rule>>
  {
    match file
    case NoRuleFile => Ok([])
    case OpenFailed(e) => Err(e)
    case RuleText(t) => Ok(ParseRules(ScanLines(t)))
  }

  /** What the rule comparison needs: a container id and stored ids of at
    * least eight characters. */
  predicate UdevPre(env: HookEnv)
  {
    |env.state.id| >= 8 && (LoadedRules(env.udev.file).Ok? ==> LibDevice.LongIds(LoadedRules(env.udev.file).value))
  }

  /** The run with the udev controller's rules and dirty flag. */
  datatype DevPass = DevPass(run: Run, rules: seq<Rule>, udevDirty: bool)

  /** The type lookup and the disk rule, then the driver and the cgroup,
    * for the resolved device `d` of the stored entry `m`. */
  function DeviceCalls(env: HookEnv, spec: Spec, useUdevd: bool, s: DevPass, m: DeviceMapping, d: Device): (r: DevPass)
    ensures r.run.doc == s.run.doc && r.run.dirty == s.run.dirty
    ensures LibDevice.LongIds(s.rules) && |env.state.id| >= 8 ==> LibDevice.LongIds(r.rules)
  {
    var typ := if d.typ != "c" then env.dev.devType(d.pathOnHost) else Ok("");
    if typ.Err? then s.(run := s.run.(err := Some(typ.msg)))
    else
      var rule := DiskRule(env.state, m);
      var add := useUdevd && d.typ != "c" && typ.value == "disk";
      var u := if add then s.(rules := Added(s.rules, rule), udevDirty := s.udevDirty || FirstIndex(s.rules, Matches(rule)).None?)
               else s;
      var o := LibDevice.UpdateDeviceOwner(Some(spec), d);
      var steps := s.run.steps + [Dev(LibDevice.AddDeviceCall(o, true))];
      match env.dev.driverAddDevice(o, true)
      case Some(e) => u.(run := s.run.(steps := steps, err := Some(e)))
      case None => u.(run := s.run.(steps := steps + [Dev(LibDevice.CgroupCall(o, true))], err := env.dev.cgroup(o, true)))
  }

  /** Resolving a stored entry, and the calls made for it, as values, so
    * that the loop's lemmas hold for any of them. */
  function Resolver(env: HookEnv): DeviceMapping -> Result<Device>
  {
    m => DeviceOf(env, m)
  }

  function Caller(env: HookEnv, spec: Spec, useUdevd: bool): (DevPass, DeviceMapping, Device) -> DevPass
  {
    (s, m, d) => DeviceCalls(env, spec, useUdevd, s, m, d)
  }

  /** The calls leave the store alone. */
  ghost predicate CallsKeep(pass: (DevPass, DeviceMapping, Device) -> DevPass)
  {
    forall s: DevPass, m: DeviceMapping, d: Device :: pass(s, m, d).run.doc == s.run.doc && pass(s, m, d).run.dirty == s.run.dirty
  }

  /** The calls keep the rules' ids long. */
  ghost predicate CallsKeepIds(pass: (DevPass, DeviceMapping, Device) -> DevPass)
  {
    forall s: DevPass, m: DeviceMapping, d: Device :: LibDevice.LongIds(s.rules) ==> LibDevice.LongIds(pass(s, m, d).rules)
  }

  /** The calls for an entry, when none fails, are `out` of it. */
  ghost predicate CallsMake(pass: (DevPass, DeviceMapping, Device) -> DevPass, out: (DeviceMapping, Device) -> seq<Step>)
  {
    forall s: DevPass, m: DeviceMapping, d: Device :: pass(s, m, d).run.err.None? ==> pass(s, m, d).run.steps == s.run.steps + out(m, d)
  }

  /** What the calls of `AddDevices` make: the device, owned by the
    * container's root, is added, then allowed in the cgroup. */
  function OwnedCalls(spec: Spec): (DeviceMapping, Device) -> seq<Step>
  {
    (m, d) => var o := LibDevice.UpdateDeviceOwner(Some(spec), d);
              [Dev(LibDevice.AddDeviceCall(o, true)), Dev(LibDevice.CgroupCall(o, true))]
  }

  lemma DeviceCallsFacts(env: HookEnv, spec: Spec, useUdevd: bool)
    requires |env.state.id| >= 8
    ensures CallsKeep(Caller(env, spec, useUdevd))
    ensures CallsKeepIds(Caller(env, spec, useUdevd))
    ensures CallsMake(Caller(env, spec, useUdevd), OwnedCalls(spec))
  {
  }

  /** One stored entry of `AddDevices`: resolve it, renumber it when its
    * numbers changed (dirty only then), then make its calls. */
  function AddDeviceStep(resolve: DeviceMapping -> Result<Device>, pass: (DevPass, DeviceMapping, Device) -> DevPass,
                         s: DevPass, i: nat): DevPass
    requires i < |s.run.doc.devices|
  {
    var m := s.run.doc.devices[i];
    match resolve(m)
    case Err(e) => s.(run := s.run.(err := Some(e)))
    case Ok(d) =>
      var changed := m.major != d.major || m.minor != d.minor;
      var run := s.run.(doc := s.run.doc.(devices := s.run.doc.devices[i := Renumbered(m, d)]), dirty := s.run.dirty || changed);
      pass(s.(run := run), m, d)
  }

  /** The loop over the first `n` stored entries, stopping at the first
    * failure; only the entries it reached may be renumbered. */
  function DevicesLoop(resolve: DeviceMapping -> Result<Device>, pass: (DevPass, DeviceMapping, Device) -> DevPass,
                       s: DevPass, n: nat): (r: DevPass)
    requires CallsKeep(pass) && n <= |s.run.doc.devices|
    ensures r.run.doc == s.run.doc.(devices := r.run.doc.devices)
    ensures |r.run.doc.devices| == |s.run.doc.devices|
    ensures r.run.doc.devices[n..] == s.run.doc.devices[n..]
    decreases n
  {
    if n == 0 then s
    else
      var p := DevicesLoop(resolve, pass, s, n - 1);
      if p.run.err.Some? then p else AddDeviceStep(resolve, pass, p, n - 1)
  }

  /** The rules' ids stay long through the loop. */
  lemma {:induction false} DevicesLongIds(resolve: DeviceMapping -> Result<Device>, pass: (DevPass, DeviceMapping, Device) -> DevPass,
                                          s: DevPass, n: nat)
    requires CallsKeep(pass) && CallsKeepIds(pass) && n <= |s.run.doc.devices| && LibDevice.LongIds(s.rules)
    ensures LibDevice.LongIds(DevicesLoop(resolve, pass, s, n).rules)
    decreases n
  {
    if n > 0 {
      DevicesLongIds(resolve, pass, s, n - 1);
    }
  }

  /** The rule file as `ToDisk` leaves it, as a step. */
  function SavedSteps(u: UdevEnv, write: bool, rules: seq<Rule>): seq<Step>
    requires write ==> LibDevice.LongIds(rules)
  {
    if !write then []
    else
      match u.save
      case CreateFailed(_) => []
      case ChmodFailed(_) => [RulesSaved("")]
      case SyncFailed(_) => [RulesSaved(SaveRules(rules))]
      case Saved => [RulesSaved(SaveRules(rules))]
  }

  /** `AddDevices`: the cgroup path, the udev lock and the rule file first;
    * then the loop over the stored entries; the rules are saved whatever
    * the loop returned, and the saving's own error is ignored. */
  function AddDevicesSpec(env: HookEnv, spec: Spec, s: Run): (r: Run)
    requires UdevPre(env)
    ensures r.doc == s.doc.(devices := r.doc.devices) && |r.doc.devices| == |s.doc.devices|
  {
    if env.cgroupPath.Err? then s.(err := Some(env.cgroupPath.msg))
    else if UdevLock(env.udev).Some? then s.(err := UdevLock(env.udev))
    else
      var useUdevd := env.udev.using == Ok(true);
      var loaded := LoadedRules(env.udev.file);
      if useUdevd && loaded.Err? then s.(err := Some(loaded.msg))
      else
        var rules := if useUdevd then loaded.value else [];
        DeviceCallsFacts(env, spec, useUdevd);
        var s0 := DevPass(s, rules, false);
        var t := DevicesLoop(Resolver(env), Caller(env, spec, useUdevd), s0, |s.doc.devices|);
        DevicesLongIds(Resolver(env), Caller(env, spec, useUdevd), s0, |s.doc.devices|);
        t.run.(steps := t.run.steps + SavedSteps(env.udev, useUdevd && t.udevDirty, t.rules))
  }

  /** One more entry of a loop that has not failed. */
  lemma DevicesSnoc(resolve: DeviceMapping -> Result<Device>, pass: (DevPass, DeviceMapping, Device) -> DevPass,
                    s: DevPass, i: nat)
    requires CallsKeep(pass) && i < |s.run.doc.devices|
    requires DevicesLoop(resolve, pass, s, i).run.err.None?
    ensures DevicesLoop(resolve, pass, s, i + 1) == AddDeviceStep(resolve, pass, DevicesLoop(resolve, pass, s, i), i)
  {
  }

  /** After a failure the loop makes no more calls and changes nothing. */
  lemma {:induction false} DevicesStay(resolve: DeviceMapping -> Result<Device>, pass: (DevPass, DeviceMapping, Device) -> DevPass,
                                       s: DevPass, k: nat, n: nat)
    requires CallsKeep(pass) && k <= n <= |s.run.doc.devices|
    requires DevicesLoop(resolve, pass, s, k).run.err.Some?
    ensures DevicesLoop(resolve, pass, s, n) == DevicesLoop(resolve, pass, s, k)
    decreases n - k
  {
    if k < n {
      DevicesStay(resolve, pass, s, k, n - 1);
    }
  }

  /** The entry's device resolves, and the entry holds its numbers. */
  predicate Healed(resolve: DeviceMapping -> Result<Device>, m: DeviceMapping, m': DeviceMapping)
  {
    resolve(m).Ok? && m' == Renumbered(m, resolve(m).value)
  }

  /** The entry's device resolves to other numbers than the stored ones. */
  predicate Stale(resolve: DeviceMapping -> Result<Device>, m: DeviceMapping)
  {
    resolve(m).Ok? && (m.major != resolve(m).value.major || m.minor != resolve(m).value.minor)
  }

  predicate AnyStale(resolve: DeviceMapping -> Result<Device>, ms: seq<DeviceMapping>)
  {
    exists j :: 0 <= j < |ms| && Stale(resolve, ms[j])
  }

  /** The calls made for the stored entries that resolve. */
  function EntrySteps(resolve: DeviceMapping -> Result<Device>, out: (DeviceMapping, Device) -> seq<Step>,
                      ms: seq<DeviceMapping>): seq<Step>
    decreases |ms|
  {
    if |ms| == 0 then []
    else
      var m := ms[|ms| - 1];
      EntrySteps(resolve, out, ms[..|ms| - 1]) + (if resolve(m).Ok? then out(m, resolve(m).value) else [])
  }

  /** A loop that ends without an error has renumbered every entry it
    * went through to the device it resolves to. */
  lemma {:induction false} DevicesHealed(resolve: DeviceMapping -> Result<Device>, pass: (DevPass, DeviceMapping, Device) -> DevPass,
                                         s: DevPass, n: nat)
    requires CallsKeep(pass)
    requires n <= |s.run.doc.devices| && s.run.err.None?
    ensures var r := DevicesLoop(resolve, pass, s, n);
            r.run.err.None? ==> forall j :: 0 <= j < n ==> Healed(resolve, s.run.doc.devices[j], r.run.doc.devices[j])
    decreases n
  {
    var r := DevicesLoop(resolve, pass, s, n);
    if n > 0 && r.run.err.None? {
      DevicesBack(resolve, pass, s, n);
      var p := DevicesLoop(resolve, pass, s, n - 1);
      DevicesHealed(resolve, pass, s, n - 1);
      HealedSnoc(resolve, s.run.doc.devices, p.run.doc.devices, r.run.doc.devices, n);
    }
  }

  /** The last round of the loop starts from a clean pass whose entry
    * `n - 1` is still as stored. */
  lemma DevicesBack(resolve: DeviceMapping -> Result<Device>, pass: (DevPass, DeviceMapping, Device) -> DevPass,
                    s: DevPass, n: nat)
    requires CallsKeep(pass)
    requires 0 < n <= |s.run.doc.devices| && DevicesLoop(resolve, pass, s, n).run.err.None?
    ensures var p := DevicesLoop(resolve, pass, s, n - 1);
            var r := DevicesLoop(resolve, pass, s, n);
            var m := s.run.doc.devices[n - 1];
            p.run.err.None? && p.run.doc.devices[n - 1] == m && resolve(m).Ok? &&
            r.run.doc.devices == p.run.doc.devices[n - 1 := Renumbered(m, resolve(m).value)] &&
            r.run.dirty == (p.run.dirty || Stale(resolve, m))
  {
    var p := DevicesLoop(resolve, pass, s, n - 1);
    assert p.run.err.None?;
    assert p.run.doc.devices[n - 1] == p.run.doc.devices[n - 1..][0];
    StepKeeps(resolve, pass, p, n - 1);
  }

  /** Renumbering entry `n - 1`, still as stored, extends the healed prefix. */
  lemma HealedSnoc(resolve: DeviceMapping -> Result<Device>, ms: seq<DeviceMapping>, ps: seq<DeviceMapping>,
                   rs: seq<DeviceMapping>, n: nat)
    requires 0 < n <= |ms| == |ps| && ps[n - 1] == ms[n - 1] && resolve(ms[n - 1]).Ok?
    requires rs == ps[n - 1 := Renumbered(ms[n - 1], resolve(ms[n - 1]).value)]
    requires forall j :: 0 <= j < n - 1 ==> Healed(resolve, ms[j], ps[j])
    ensures forall j :: 0 <= j < n ==> Healed(resolve, ms[j], rs[j])
  {
    forall j | 0 <= j < n
      ensures Healed(resolve, ms[j], rs[j])
    {
      if j < n - 1 {
        assert rs[j] == ps[j];
      }
    }
  }

  /** ... is dirty exactly when one of them was stale ... */
  lemma {:induction false} DevicesDirty(resolve: DeviceMapping -> Result<Device>, pass: (DevPass, DeviceMapping, Device) -> DevPass,
                                        s: DevPass, n: nat)
    requires CallsKeep(pass)
    requires n <= |s.run.doc.devices| && s.run.err.None?
    ensures var r := DevicesLoop(resolve, pass, s, n);
            r.run.err.None? ==> r.run.dirty == (s.run.dirty || AnyStale(resolve, s.run.doc.devices[..n]))
    decreases n
  {
    var r := DevicesLoop(resolve, pass, s, n);
    if n > 0 && r.run.err.None? {
      DevicesBack(resolve, pass, s, n);
      var p := DevicesLoop(resolve, pass, s, n - 1);
      DevicesDirty(resolve, pass, s, n - 1);
      AnyStaleSnoc(resolve, s.run.doc.devices, n);
    }
  }

  /** ... and has made the calls of every entry, in order. */
  lemma {:induction false} DevicesSteps(resolve: DeviceMapping -> Result<Device>, pass: (DevPass, DeviceMapping, Device) -> DevPass,
                                        out: (DeviceMapping, Device) -> seq<Step>, s: DevPass, n: nat)
    requires CallsKeep(pass) && CallsMake(pass, out)
    requires n <= |s.run.doc.devices| && s.run.err.None?
    ensures var r := DevicesLoop(resolve, pass, s, n);
            r.run.err.None? ==> r.run.steps == s.run.steps + EntrySteps(resolve, out, s.run.doc.devices[..n])
    decreases n
  {
    var r := DevicesLoop(resolve, pass, s, n);
    if n > 0 && r.run.err.None? {
      var ms := s.run.doc.devices;
      var p := DevicesLoop(resolve, pass, s, n - 1);
      assert p.run.err.None?;
      DevicesSteps(resolve, pass, out, s, n - 1);
      StepSucceeds(resolve, pass, out, p, n - 1);
      assert p.run.doc.devices[n - 1] == ms[n - 1];
      EntryStepsSnoc(resolve, out, ms, n);
      var m := ms[n - 1];
      Assoc(s.run.steps, EntrySteps(resolve, out, ms[..n - 1]), out(m, resolve(m).value));
    }
  }

  /** The calls of one more entry. */
  lemma EntryStepsSnoc(resolve: DeviceMapping -> Result<Device>, out: (DeviceMapping, Device) -> seq<Step>,
                       ms: seq<DeviceMapping>, n: nat)
    requires 0 < n <= |ms|
    ensures var m := ms[n - 1];
            EntrySteps(resolve, out, ms[..n]) ==
            EntrySteps(resolve, out, ms[..n - 1]) + (if resolve(m).Ok? then out(m, resolve(m).value) else [])
  {
    assert ms[..n][..n - 1] == ms[..n - 1];
    assert ms[..n][n - 1] == ms[n - 1];
  }

  /** One entry of the loop, when its calls succeed: the entry is
    * renumbered, and the store is dirty when it was stale. */
  lemma StepKeeps(resolve: DeviceMapping -> Result<Device>, pass: (DevPass, DeviceMapping, Device) -> DevPass,
                  p: DevPass, i: nat)
    requires CallsKeep(pass)
    requires i < |p.run.doc.devices| && p.run.err.None?
    ensures var r := AddDeviceStep(resolve, pass, p, i);
            var m := p.run.doc.devices[i];
            r.run.err.None? ==>
              resolve(m).Ok? &&
              r.run.doc.devices == p.run.doc.devices[i := Renumbered(m, resolve(m).value)] &&
              r.run.dirty == (p.run.dirty || Stale(resolve, m))
  {
  }

  /** One entry of the loop, when its calls succeed. */
  lemma StepSucceeds(resolve: DeviceMapping -> Result<Device>, pass: (DevPass, DeviceMapping, Device) -> DevPass,
                     out: (DeviceMapping, Device) -> seq<Step>, p: DevPass, i: nat)
    requires CallsKeep(pass) && CallsMake(pass, out)
    requires i < |p.run.doc.devices| && p.run.err.None?
    ensures var r := AddDeviceStep(resolve, pass, p, i);
            var m := p.run.doc.devices[i];
            r.run.err.None? ==>
              resolve(m).Ok? &&
              r.run.doc.devices == p.run.doc.devices[i := Renumbered(m, resolve(m).value)] &&
              r.run.dirty == (p.run.dirty || Stale(resolve, m)) &&
              r.run.steps == p.run.steps + out(m, resolve(m).value)
  {
  }

  lemma AnyStaleSnoc(resolve: DeviceMapping -> Result<Device>, ms: seq<DeviceMapping>, n: nat)
    requires 0 < n <= |ms|
    ensures AnyStale(resolve, ms[..n]) == (AnyStale(resolve, ms[..n - 1]) || Stale(resolve, ms[n - 1]))
  {
    assert ms[..n][n - 1] == ms[n - 1];
    if AnyStale(resolve, ms[..n]) {
      var j :| 0 <= j < n && Stale(resolve, ms[..n][j]);
      if j < n - 1 {
        assert Stale(resolve, ms[..n - 1][j]);
      }
    }
    if AnyStale(resolve, ms[..n - 1]) {
      var j :| 0 <= j < n - 1 && Stale(resolve, ms[..n - 1][j]);
      assert Stale(resolve, ms[..n][j]);
    }
  }

  /** The outcome of `AddDevices`: when it succeeds, every stored entry
    * resolved and now holds the numbers of its device, the store is dirty
    * exactly when one of them was stale, nothing else in the store changed,
    * and each device was added and allowed in the cgroup, in order. */
  lemma AddDevicesHeals(env: HookEnv, spec: Spec, s: Run)
    requires UdevPre(env) && s.err.None?
    ensures var r := AddDevicesSpec(env, spec, s);
            r.err.None? ==>
              r.doc == s.doc.(devices := r.doc.devices) && |r.doc.devices| == |s.doc.devices| &&
              (forall j :: 0 <= j < |s.doc.devices| ==> Healed(Resolver(env), s.doc.devices[j], r.doc.devices[j])) &&
              r.dirty == (s.dirty || AnyStale(Resolver(env), s.doc.devices))
  {
    var r := AddDevicesSpec(env, spec, s);
    if env.cgroupPath.Ok? && UdevLock(env.udev).None? {
      var useUdevd := env.udev.using == Ok(true);
      var loaded := LoadedRules(env.udev.file);
      if !(useUdevd && loaded.Err?) {
        var rules := if useUdevd then loaded.value else [];
        DeviceCallsFacts(env, spec, useUdevd);
        var s0 := DevPass(s, rules, false);
        var n := |s.doc.devices|;
        assert s.doc.devices[..n] == s.doc.devices;
        DevicesHealed(Resolver(env), Caller(env, spec, useUdevd), s0, n);
        DevicesDirty(Resolver(env), Caller(env, spec, useUdevd), s0, n);
      }
    }
  }

  /** When `AddDevices` succeeds, its first calls add each stored device,
    * owned by the container's root, and allow it in the cgroup, in the
    * stored order; only the saved rule file may follow. */
  lemma AddDevicesCalls(env: HookEnv, spec: Spec, s: Run)
    requires UdevPre(env) && s.err.None?
    ensures var r := AddDevicesSpec(env, spec, s);
            var e := EntrySteps(Resolver(env), OwnedCalls(spec), s.doc.devices);
            r.err.None? ==> |r.steps| >= |s.steps| + |e| && r.steps[..|s.steps| + |e|] == s.steps + e
  {
    var r := AddDevicesSpec(env, spec, s);
    if env.cgroupPath.Ok? && UdevLock(env.udev).None? {
      var useUdevd := env.udev.using == Ok(true);
      var loaded := LoadedRules(env.udev.file);
      if !(useUdevd && loaded.Err?) {
        var rules := if useUdevd then loaded.value else [];
        DeviceCallsFacts(env, spec, useUdevd);
        var s0 := DevPass(s, rules, false);
        var n := |s.doc.devices|;
        assert s.doc.devices[..n] == s.doc.devices;
        DevicesSteps(Resolver(env), Caller(env, spec, useUdevd), OwnedCalls(spec), s0, n);
      }
    }
  }

  /** The type lookup, the disk rule, the driver and the cgroup for the
    * resolved device `d` of the stored entry `m`. */
  method MakeDeviceCalls(env: HookEnv, spec: Spec, ctrl: Controller, m: DeviceMapping, d: Device, steps0: seq<Step>,
                         ghost doc: HookDoc, ghost dirty: bool)
    returns (steps: seq<Step>, err: Option<string>)
    modifies ctrl
    requires |env.state.id| >= 8 && LibDevice.LongIds(ctrl.rules)
    ensures DevPass(Run(doc, dirty, steps, err), ctrl.rules, ctrl.dirty) ==
            DeviceCalls(env, spec, ctrl.useUdevd, old(DevPass(Run(doc, dirty, steps0, None), ctrl.rules, ctrl.dirty)), m, d)
    ensures LibDevice.LongIds(ctrl.rules)
  {
    if d.typ != "c" {
      var typ := env.dev.devType(d.pathOnHost);
      if typ.Err? {
        return steps0, Some(typ.msg);
      }
      if typ.value == "disk" {
        LibDevice.LongIdsKept(ctrl.rules, DiskRule(env.state, m));
        ctrl.AddRule(DiskRule(env.state, m));
      }
    }
    var o := LibDevice.UpdateDeviceOwner(Some(spec), d);
    steps := steps0 + [Dev(LibDevice.AddDeviceCall(o, true))];
    err := env.dev.driverAddDevice(o, true);
    if err.Some? {
      return;
    }
    steps := steps + [Dev(LibDevice.CgroupCall(o, true))];
    err := env.dev.cgroup(o, true);
  }

  /** One stored entry, as `AddDevices`' loop body runs it. */
  method AddDeviceOne(env: HookEnv, spec: Spec, cfg: ContainerHookConfig, ctrl: Controller, i: nat, steps0: seq<Step>)
    returns (steps: seq<Step>, err: Option<string>)
    modifies cfg, ctrl
    requires cfg != ctrl as object
    requires i < |cfg.devices| && |env.state.id| >= 8 && LibDevice.LongIds(ctrl.rules)
    ensures DevPass(State(cfg, steps, err), ctrl.rules, ctrl.dirty) ==
            AddDeviceStep(Resolver(env), Caller(env, spec, ctrl.useUdevd), old(DevPass(State(cfg, steps0, None), ctrl.rules, ctrl.dirty)), i)
    ensures LibDevice.LongIds(ctrl.rules)
  {
    ghost var s := DevPass(State(cfg, steps0, None), ctrl.rules, ctrl.dirty);
    var m := cfg.devices[i];
    var parsed := DeviceOf(env, m);
    if parsed.Err? {
      return steps0, Some(parsed.msg);
    }
    var d := parsed.value;
    if m.major != d.major || m.minor != d.minor {
      cfg.devices := cfg.devices[i := Renumbered(m, d)];
      cfg.SetConfigDirty();
    } else {
      assert cfg.devices[i := Renumbered(m, d)] == cfg.devices;
    }
    ghost var t := s.(run := State(cfg, steps0, None));
    assert AddDeviceStep(Resolver(env), Caller(env, spec, ctrl.useUdevd), s, i) ==
           Caller(env, spec, ctrl.useUdevd)(t, m, d);
    steps, err := MakeDeviceCalls(env, spec, ctrl, m, d, steps0, cfg.Doc(), cfg.dirty);
  }

  /** One more turn of `AddDevices`' loop, as the loop sees it. */
  method AddDevicesTurn(env: HookEnv, spec: Spec, cfg: ContainerHookConfig, ctrl: Controller, i: nat, steps0: seq<Step>,
                        ghost resolve: DeviceMapping -> Result<Device>, ghost pass: (DevPass, DeviceMapping, Device) -> DevPass,
                        ghost s0: DevPass)
    returns (steps: seq<Step>, err: Option<string>)
    modifies cfg, ctrl
    requires cfg != ctrl as object
    requires |env.state.id| >= 8 && LibDevice.LongIds(ctrl.rules)
    requires resolve == Resolver(env) && pass == Caller(env, spec, ctrl.useUdevd) && CallsKeep(pass)
    requires i < |s0.run.doc.devices|
    requires DevicesLoop(resolve, pass, s0, i) == DevPass(State(cfg, steps0, None), ctrl.rules, ctrl.dirty)
    ensures DevicesLoop(resolve, pass, s0, i + 1) == DevPass(State(cfg, steps, err), ctrl.rules, ctrl.dirty)
    ensures LibDevice.LongIds(ctrl.rules) && |cfg.devices| == |s0.run.doc.devices|
  {
    DevicesSnoc(resolve, pass, s0, i);
    steps, err := AddDeviceOne(env, spec, cfg, ctrl, i, steps0);
    assert cfg.devices == DevicesLoop(resolve, pass, s0, i + 1).run.doc.devices;
  }

  /** The loop of `AddDevices` over the stored entries. */
  method AddDevicesLoop(env: HookEnv, spec: Spec, cfg: ContainerHookConfig, ctrl: Controller, steps0: seq<Step>,
                        ghost resolve: DeviceMapping -> Result<Device>, ghost pass: (DevPass, DeviceMapping, Device) -> DevPass)
    returns (steps: seq<Step>, err: Option<string>)
    modifies cfg, ctrl
    requires cfg != ctrl as object
    requires |env.state.id| >= 8 && LibDevice.LongIds(ctrl.rules)
    requires resolve == Resolver(env) && pass == Caller(env, spec, ctrl.useUdevd) && CallsKeep(pass)
    ensures DevPass(State(cfg, steps, err), ctrl.rules, ctrl.dirty) ==
            DevicesLoop(resolve, pass, old(DevPass(State(cfg, steps0, None), ctrl.rules, ctrl.dirty)), old(|cfg.devices|))
    ensures LibDevice.LongIds(ctrl.rules)
  {
    ghost var s0 := DevPass(State(cfg, steps0, None), ctrl.rules, ctrl.dirty);
    var n := |cfg.devices|;
    assert n == |s0.run.doc.devices|;
    steps, err := steps0, None;
    var i := 0;
    while i < n && err.None?
      invariant 0 <= i <= n == |s0.run.doc.devices|
      invariant DevicesLoop(resolve, pass, s0, i) == DevPass(State(cfg, steps, err), ctrl.rules, ctrl.dirty)
      invariant LibDevice.LongIds(ctrl.rules)
    {
      steps, err := AddDevicesTurn(env, spec, cfg, ctrl, i, steps, resolve, pass, s0);
      i := i + 1;
    }
    if err.Some? {
      DevicesStay(resolve, pass, s0, i, n);
    }
  }

  /** `ToDisk` on the way out of `AddDevices`, its error ignored. */
  method SaveOnExit(env: HookEnv, ctrl: Controller, steps0: seq<Step>) returns (steps: seq<Step>)
    requires LibDevice.LongIds(ctrl.rules)
    ensures steps == steps0 + SavedSteps(env.udev, ctrl.useUdevd && ctrl.dirty, ctrl.rules)
  {
    var written, ignored := ctrl.ToDisk(env.udev.save, env.udev.reloadErr);
    steps := steps0;
    if written.Some? {
      steps := steps + [RulesSaved(written.value)];
    }
  }

  /** `AddDevices` as the source runs it: the udev controller is made and
    * loaded, the stored entries are visited in order until one fails, and
    * the rules are saved on the way out. */
  method AddDevices(env: HookEnv, spec: Spec, cfg: ContainerHookConfig, steps0: seq<Step>)
    returns (steps: seq<Step>, err: Option<string>)
    modifies cfg
    requires UdevPre(env)
    ensures State(cfg, steps, err) == AddDevicesSpec(env, spec, old(State(cfg, steps0, None)))
  {
    steps, err := steps0, None;
    if env.cgroupPath.Err? {
      return steps, Some(env.cgroupPath.msg);
    }
    if UdevLock(env.udev).Some? {
      return steps, UdevLock(env.udev);
    }
    var ctrl := new Controller(env.udev.using);
    err := ctrl.LoadRules(env.udev.file);
    if err.Some? {
      return;
    }
    ghost var s0 := DevPass(State(cfg, steps, None), ctrl.rules, ctrl.dirty);
    DeviceCallsFacts(env, spec, ctrl.useUdevd);
    steps, err := AddDevicesLoop(env, spec, cfg, ctrl, steps, Resolver(env), Caller(env, spec, ctrl.useUdevd));
    DevicesLongIds(Resolver(env), Caller(env, spec, ctrl.useUdevd), s0, |s0.run.doc.devices|);
    steps := SaveOnExit(env, ctrl, steps);
  }

  // ---------------------------------------------------------------------
  // AddBinds

  /** Driver and host calls as steps. */
  function DevSteps(calls: seq<LibDevice.Call>): seq<Step>
  {
    Map(calls, (c: LibDevice.Call) => Dev(c))
  }

  /** The calls made for one stored bind: none when it does not parse;
    * otherwise the transfer path's host calls, whose failure is only
    * logged, then the driver's bind of the marked bind, whose failure is
    * only logged too. */
  function BindSteps(env: HookEnv, spec: Spec, bindstr: string): seq<Step>
  {
    match StringToBind(env.state.root, bindstr, spec, true, env.hostView)
    case Err(_) => []
    case Ok(b) =>
      PreparedSteps(Transfer.PrepareTransferPath(env.dev.host, env.dev.digest, env.dev.source, env.state.root, env.state.id, b, true))
  }

  /** The host calls of the transfer path, then the driver's bind. */
  function PreparedSteps(p: Transfer.Prepared): seq<Step>
  {
    DevSteps(LibDevice.HostCalls(p.steps) + [LibDevice.AddBindCall(p.bind)])
  }

  function BindStepsOf(env: HookEnv, spec: Spec): string -> seq<Step>
  {
    b => BindSteps(env, spec, b)
  }

  /** The steps of each item, in order. */
  function FlatMap<T>(xs: seq<T>, f: T -> seq<Step>): seq<Step>
    decreases |xs|
  {
    if |xs| == 0 then [] else FlatMap(xs[..|xs| - 1], f) + f(xs[|xs| - 1])
  }

  lemma FlatMapSnoc<T>(xs: seq<T>, i: nat, f: T -> seq<Step>)
    requires i < |xs|
    ensures FlatMap(xs[..i + 1], f) == FlatMap(xs[..i], f) + f(xs[i])
  {
    assert xs[..i + 1][..i] == xs[..i];
  }

  /** The bind a step hands to the driver, if it is a bind call. */
  function BindOf(): Step -> Option<Bind>
  {
    (st: Step) => if st.Dev? && st.call.AddBindCall? then Some(st.call.bind) else None
  }

  /** The binds handed to the driver, in order. */
  function DriverBinds(steps: seq<Step>): seq<Bind>
  {
    FilterMap(steps, BindOf())
  }

  /** The marked form of a stored bind that parses. */
  function MarkedOf(env: HookEnv, spec: Spec): string -> Option<Bind>
  {
    (bindstr: string) =>
      match StringToBind(env.state.root, bindstr, spec, true, env.hostView)
      case Err(_) => None
      case Ok(b) => Some(Transfer.MarkedBind(env.dev.digest, env.state.root, b))
  }

  /** Host calls hand no bind to the driver. */
  lemma HostCallsBindNothing(hs: seq<Transfer.HostStep>)
    ensures DriverBinds(DevSteps(LibDevice.HostCalls(hs))) == []
  {
    var st := DevSteps(LibDevice.HostCalls(hs));
    forall i | 0 <= i < |st|
      ensures BindOf()(st[i]).None?
    {
      assert st[i] == Dev(LibDevice.HostCall(hs[i]));
    }
    FilterMapNone(st, BindOf());
  }

  /** The driver is handed the prepared bind and nothing else. */
  lemma PreparedBind(p: Transfer.Prepared)
    ensures DriverBinds(PreparedSteps(p)) == [p.bind]
  {
    var hs := DevSteps(LibDevice.HostCalls(p.steps));
    assert PreparedSteps(p) == hs + [Dev(LibDevice.AddBindCall(p.bind))];
    HostCallsBindNothing(p.steps);
    FilterMapSnoc(hs, Dev(LibDevice.AddBindCall(p.bind)), BindOf());
  }

  /** One stored bind hands the driver its marked form when it parses, and
    * nothing otherwise. */
  lemma BindStepsBind(env: HookEnv, spec: Spec, bindstr: string)
    ensures DriverBinds(BindSteps(env, spec, bindstr)) ==
            if MarkedOf(env, spec)(bindstr).Some? then [MarkedOf(env, spec)(bindstr).value] else []
  {
    match StringToBind(env.state.root, bindstr, spec, true, env.hostView)
    case Err(_) =>
    case Ok(b) =>
      PreparedBind(Transfer.PrepareTransferPath(env.dev.host, env.dev.digest, env.dev.source, env.state.root, env.state.id, b, true));
  }

  /** The binds of a sequence of items are those of each item, in order. */
  lemma {:induction false} FlatMapBinds<T>(xs: seq<T>, f: T -> seq<Step>, h: T -> Option<Bind>)
    requires forall x :: DriverBinds(f(x)) == if h(x).Some? then [h(x).value] else []
    ensures DriverBinds(FlatMap(xs, f)) == FilterMap(xs, h)
    decreases |xs|
  {
    if |xs| > 0 {
      var k := |xs| - 1;
      FlatMapBinds(xs[..k], f, h);
      FilterMapAppend(FlatMap(xs[..k], f), f(xs[k]), BindOf());
    }
  }

  /** `AddBinds` hands the driver, in stored order, the marked form of
    * every stored bind that parses, whatever the transfer paths and the
    * driver answer; binds that do not parse are skipped. */
  lemma AddBindsBindEach(env: HookEnv, spec: Spec, binds: seq<string>)
    ensures DriverBinds(FlatMap(binds, BindStepsOf(env, spec))) == FilterMap(binds, MarkedOf(env, spec))
  {
    forall x
      ensures DriverBinds(BindStepsOf(env, spec)(x)) ==
              if MarkedOf(env, spec)(x).Some? then [MarkedOf(env, spec)(x).value] else []
    {
      BindStepsBind(env, spec, x);
    }
    FlatMapBinds(binds, BindStepsOf(env, spec), MarkedOf(env, spec));
  }

  /** One stored bind, as `AddBinds`' loop body runs it. */
  method AddBind(env: HookEnv, spec: Spec, bindstr: string) returns (steps: seq<Step>)
    ensures steps == BindSteps(env, spec, bindstr)
  {
    var parsed := StringToBind(env.state.root, bindstr, spec, true, env.hostView);
    if parsed.Err? {
      return [];
    }
    var p := Transfer.PrepareTransferPath(env.dev.host, env.dev.digest, env.dev.source, env.state.root, env.state.id, parsed.value, true);
    var ignored := env.dev.driverAddBind(p.bind);
    steps := PreparedSteps(p);
  }

  /** One more turn of `AddBinds`' loop, as the loop sees it. */
  method AddBindsTurn(env: HookEnv, spec: Spec, binds: seq<string>, i: nat, steps0: seq<Step>, ghost pre: seq<Step>)
    returns (steps: seq<Step>)
    requires i < |binds| && steps0 == pre + FlatMap(binds[..i], BindStepsOf(env, spec))
    ensures steps == pre + FlatMap(binds[..i + 1], BindStepsOf(env, spec))
  {
    FlatMapSnoc(binds, i, BindStepsOf(env, spec));
    var more := AddBind(env, spec, binds[i]);
    steps := steps0 + more;
  }

  /** `AddBinds`: every stored bind in turn; it never fails and leaves the
    * store alone. */
  method AddBinds(env: HookEnv, spec: Spec, cfg: ContainerHookConfig, steps0: seq<Step>)
    returns (steps: seq<Step>, err: Option<string>)
    ensures steps == steps0 + FlatMap(cfg.binds, BindStepsOf(env, spec)) && err.None?
  {
    var binds := cfg.binds;
    steps, err := steps0, None;
    var i := 0;
    while i < |binds|
      invariant 0 <= i <= |binds|
      invariant steps == steps0 + FlatMap(binds[..i], BindStepsOf(env, spec))
    {
      steps := AddBindsTurn(env, spec, binds, i, steps, steps0);
      i := i + 1;
    }
    assert binds[..i] == binds;
  }

  // ---------------------------------------------------------------------
  // UpdateQos

  /** The order `UpdateQos` visits the QoS lists in. */
  const QosOrder: seq<QosType> := [ReadIOPS, WriteIOPS, ReadBps, WriteBps, BlkioWeight]

  /** `GetDeviceNum` of a stored path, as a value. */
  function Numbers(env: HookEnv): string -> Result<(int, int)>
  {
    p => DeviceParse.GetDeviceNum(p, env.fromPath)
  }

  /** The entry with the numbers its path has now. */
  function QosRenumbered(q: Qos, n: (int, int)): Qos
  {
    q.(major := n.0, minor := n.1)
  }

  /** The blkio write of an entry of kind `t`, as a step. */
  function QosWriteOf(t: QosType): Qos -> Step
  {
    q => Dev(LibDevice.QosCall(t, QosString(q)))
  }

  /** The store differs from `d` only in the entries of the QoS lists of
    * the kinds `ks`; every list keeps its length. */
  predicate QosTouched(d: HookDoc, d': HookDoc, ks: seq<QosType>)
  {
    d'.binds == d.binds && d'.devices == d.devices && d'.nics == d.nics && d'.routes == d.routes &&
    forall u :: |QosOf(d', u)| == |QosOf(d, u)| && (u !in ks ==> QosOf(d', u) == QosOf(d, u))
  }

  /** Putting back the list a document has changes nothing. */
  lemma WithQosSame(d: HookDoc, t: QosType)
    ensures WithQos(d, t, QosOf(d, t)) == d
  {
  }

  /** Only the last of two replacements of one kind's list counts. */
  lemma WithQosTwice(d: HookDoc, t: QosType, a: seq<Qos>, b: seq<Qos>)
    ensures WithQos(WithQos(d, t, a), t, b) == WithQos(d, t, b)
  {
  }

  /** What the loop over one kind works on: that kind's list, the dirty
    * flag, the calls made so far and the error that stopped it. */
  datatype KindPass = KindPass(l: seq<Qos>, dirty: bool, steps: seq<Step>, err: Option<string>)

  /** The loop's view of kind `t` of a run. */
  function KindOf(s: Run, t: QosType): KindPass
  {
    KindPass(QosOf(s.doc, t), s.dirty, s.steps, s.err)
  }

  /** The run once the loop over kind `t` has left `k`. */
  function WithKind(s: Run, t: QosType, k: KindPass): Run
  {
    Run(WithQos(s.doc, t, k.l), k.dirty, k.steps, k.err)
  }

  /** Entry `i` of a kind: the numbers of its path, written into the list
    * when they changed (dirty only then), then the write `w` of the updated
    * entry, recorded as `call`. */
  function QosStep(num: string -> Result<(int, int)>, w: Qos -> Option<string>, call: Qos -> Step,
                   s: KindPass, i: nat): (r: KindPass)
    requires i < |s.l|
    ensures |r.l| == |s.l|
    ensures forall j :: 0 <= j < |s.l| && j != i ==> r.l[j] == s.l[j]
  {
    var l := s.l;
    match num(l[i].path)
    case Err(e) => s.(err := Some(e))
    case Ok(n) =>
      var q := QosRenumbered(l[i], n);
      var changed := l[i].major != n.0 || l[i].minor != n.1;
      s.(l := if changed then l[i := q] else l, dirty := s.dirty || changed,
         steps := s.steps + [call(q)], err := w(q))
  }

  /** The first `n` entries of a kind, until one fails. */
  function QosLoop(num: string -> Result<(int, int)>, w: Qos -> Option<string>, call: Qos -> Step,
                   s: KindPass, n: nat): (r: KindPass)
    requires n <= |s.l|
    ensures |r.l| == |s.l|
    ensures forall j :: n <= j < |s.l| ==> r.l[j] == s.l[j]
    decreases n
  {
    if n == 0 then s
    else
      var p := QosLoop(num, w, call, s, n - 1);
      if p.err.Some? then p else QosStep(num, w, call, p, n - 1)
  }

  /** The blkio write of an entry of kind `t`, as a value. */
  function QosWriter(write: (QosType, string) -> Option<string>, t: QosType): Qos -> Option<string>
  {
    q => write(t, QosString(q))
  }

  /** The lists of the kinds `ks` in turn, until one entry fails. */
  function KindsLoop(num: string -> Result<(int, int)>, write: (QosType, string) -> Option<string>,
                     s: Run, ks: seq<QosType>): (r: Run)
    ensures QosTouched(s.doc, r.doc, ks)
    decreases |ks|
  {
    if |ks| == 0 then s
    else
      var pre := ks[..|ks| - 1];
      var t := ks[|ks| - 1];
      var p := KindsLoop(num, write, s, pre);
      if p.err.Some? then p
      else
        WithKind(p, t, QosLoop(num, QosWriter(write, t), QosWriteOf(t), KindOf(p, t), |QosOf(p.doc, t)|))
  }

  /** `UpdateQos`: the five QoS lists, in order; every entry gets the
    * numbers of its path and is written to the blkio file of its kind. */
  function UpdateQosSpec(env: HookEnv, s: Run): Run
  {
    KindsLoop(Numbers(env), env.dev.qosWrite, s, QosOrder)
  }

  /** The entry's path resolves, and the entry holds its numbers. */
  predicate QosHealed(num: string -> Result<(int, int)>, q: Qos, q': Qos)
  {
    num(q.path).Ok? && q' == QosRenumbered(q, num(q.path).value)
  }

  /** The entry's path resolves to other numbers than the stored ones. */
  predicate QosStale(num: string -> Result<(int, int)>, q: Qos)
  {
    num(q.path).Ok? && (q.major != num(q.path).value.0 || q.minor != num(q.path).value.1)
  }

  predicate AnyQosStale(num: string -> Result<(int, int)>, qs: seq<Qos>)
  {
    exists j :: 0 <= j < |qs| && QosStale(num, qs[j])
  }

  /** Every entry of kind `t` is healed. */
  predicate KindHealed(num: string -> Result<(int, int)>, d: HookDoc, d': HookDoc, t: QosType)
  {
    |QosOf(d', t)| == |QosOf(d, t)| &&
    forall j :: 0 <= j < |QosOf(d, t)| ==> QosHealed(num, QosOf(d, t)[j], QosOf(d', t)[j])
  }

  predicate AnyKindStale(num: string -> Result<(int, int)>, d: HookDoc, ks: seq<QosType>)
  {
    exists k :: 0 <= k < |ks| && AnyQosStale(num, QosOf(d, ks[k]))
  }

  /** The blkio writes of the entries of the kinds `ks`, kind by kind. */
  function AllQosWrites(d: HookDoc, ks: seq<QosType>): seq<Step>
    decreases |ks|
  {
    if |ks| == 0 then []
    else AllQosWrites(d, ks[..|ks| - 1]) + Map(QosOf(d, ks[|ks| - 1]), QosWriteOf(ks[|ks| - 1]))
  }

  /** One entry, when its write succeeds: renumbered, and dirty when stale. */
  lemma QosStepKeeps(num: string -> Result<(int, int)>, w: Qos -> Option<string>, call: Qos -> Step,
                     p: KindPass, i: nat)
    requires i < |p.l| && p.err.None?
    ensures var r := QosStep(num, w, call, p, i);
            r.err.None? ==>
              num(p.l[i].path).Ok? &&
              r.l == p.l[i := QosRenumbered(p.l[i], num(p.l[i].path).value)] &&
              r.dirty == (p.dirty || QosStale(num, p.l[i]))
  {
    var l := p.l;
    if num(l[i].path).Ok? {
      var q := QosRenumbered(l[i], num(l[i].path).value);
      if q == l[i] {
        assert l[i := q] == l;
      }
    }
  }

  /** One entry, when its write succeeds. */
  lemma QosStepSucceeds(num: string -> Result<(int, int)>, w: Qos -> Option<string>, call: Qos -> Step,
                        p: KindPass, i: nat)
    requires i < |p.l| && p.err.None?
    ensures var r := QosStep(num, w, call, p, i);
            var l := p.l;
            r.err.None? ==>
              num(l[i].path).Ok? &&
              r.l == l[i := QosRenumbered(l[i], num(l[i].path).value)] &&
              r.dirty == (p.dirty || QosStale(num, l[i])) &&
              r.steps == p.steps + [call(QosRenumbered(l[i], num(l[i].path).value))]
  {
    QosStepKeeps(num, w, call, p, i);
  }

  /** One more entry of a loop that has not failed. */
  lemma QosSnoc(num: string -> Result<(int, int)>, w: Qos -> Option<string>, call: Qos -> Step,
                s: KindPass, i: nat)
    requires i < |s.l| && QosLoop(num, w, call, s, i).err.None?
    ensures QosLoop(num, w, call, s, i + 1) == QosStep(num, w, call, QosLoop(num, w, call, s, i), i)
  {
  }

  /** After a failure the loop over a kind makes no more calls. */
  lemma {:induction false} QosStay(num: string -> Result<(int, int)>, w: Qos -> Option<string>, call: Qos -> Step,
                                   s: KindPass, k: nat, n: nat)
    requires k <= n <= |s.l| && QosLoop(num, w, call, s, k).err.Some?
    ensures QosLoop(num, w, call, s, n) == QosLoop(num, w, call, s, k)
    decreases n - k
  {
    if k < n {
      QosStay(num, w, call, s, k, n - 1);
    }
  }

  /** A loop stopped at `i`, by a failure or at the end, is the whole loop. */
  lemma QosDone(num: string -> Result<(int, int)>, w: Qos -> Option<string>, call: Qos -> Step,
                s: KindPass, i: nat, r: KindPass)
    requires i <= |s.l| && QosLoop(num, w, call, s, i) == r
    requires i == |s.l| || r.err.Some?
    ensures QosLoop(num, w, call, s, |s.l|) == r
  {
    if r.err.Some? {
      QosStay(num, w, call, s, i, |s.l|);
    }
  }

  /** The last round of a loop over a kind that has not failed renumbers
    * its entry, still as stored. */
  lemma QosBack(num: string -> Result<(int, int)>, w: Qos -> Option<string>, call: Qos -> Step,
                s: KindPass, n: nat)
    requires 0 < n <= |s.l| && QosLoop(num, w, call, s, n).err.None?
    ensures var p := QosLoop(num, w, call, s, n - 1);
            var r := QosLoop(num, w, call, s, n);
            var q := s.l[n - 1];
            p.err.None? && p.l[n - 1] == q && num(q.path).Ok? &&
            r.l == p.l[n - 1 := QosRenumbered(q, num(q.path).value)] &&
            r.dirty == (p.dirty || QosStale(num, q)) &&
            r.steps == p.steps + [call(QosRenumbered(q, num(q.path).value))]
  {
    var p := QosLoop(num, w, call, s, n - 1);
    assert p.err.None?;
    QosStepSucceeds(num, w, call, p, n - 1);
  }

  /** A loop over a kind that ends without an error has healed every entry
    * it went through ... */
  lemma {:induction false} QosLoopHealed(num: string -> Result<(int, int)>, w: Qos -> Option<string>, call: Qos -> Step,
                                         s: KindPass, n: nat)
    requires n <= |s.l| && s.err.None?
    ensures var r := QosLoop(num, w, call, s, n);
            r.err.None? ==> forall j :: 0 <= j < n ==> QosHealed(num, s.l[j], r.l[j])
    decreases n
  {
    var r := QosLoop(num, w, call, s, n);
    if n > 0 && r.err.None? {
      QosBack(num, w, call, s, n);
      var p := QosLoop(num, w, call, s, n - 1);
      QosLoopHealed(num, w, call, s, n - 1);
      QosHealedSnoc(num, s.l, p.l, r.l, n);
    }
  }

  /** Renumbering entry `n - 1`, still as stored, extends the healed prefix. */
  lemma QosHealedSnoc(num: string -> Result<(int, int)>, ls: seq<Qos>, lp: seq<Qos>, lr: seq<Qos>, n: nat)
    requires 0 < n <= |ls| == |lp| && lp[n - 1] == ls[n - 1] && num(ls[n - 1].path).Ok?
    requires lr == lp[n - 1 := QosRenumbered(ls[n - 1], num(ls[n - 1].path).value)]
    requires forall j :: 0 <= j < n - 1 ==> QosHealed(num, ls[j], lp[j])
    ensures forall j :: 0 <= j < n ==> QosHealed(num, ls[j], lr[j])
  {
    forall j | 0 <= j < n
      ensures QosHealed(num, ls[j], lr[j])
    {
      if j < n - 1 {
        assert lr[j] == lp[j];
      }
    }
  }

  /** ... is dirty exactly when one of them was stale ... */
  lemma {:induction false} QosLoopDirty(num: string -> Result<(int, int)>, w: Qos -> Option<string>, call: Qos -> Step,
                                        s: KindPass, n: nat)
    requires n <= |s.l| && s.err.None?
    ensures var r := QosLoop(num, w, call, s, n);
            r.err.None? ==> r.dirty == (s.dirty || AnyQosStale(num, s.l[..n]))
    decreases n
  {
    var r := QosLoop(num, w, call, s, n);
    if n > 0 && r.err.None? {
      QosBack(num, w, call, s, n);
      QosLoopDirty(num, w, call, s, n - 1);
      AnyQosStaleSnoc(num, s.l, n);
    }
  }

  lemma AnyQosStaleSnoc(num: string -> Result<(int, int)>, qs: seq<Qos>, n: nat)
    requires 0 < n <= |qs|
    ensures AnyQosStale(num, qs[..n]) == (AnyQosStale(num, qs[..n - 1]) || QosStale(num, qs[n - 1]))
  {
    assert qs[..n][n - 1] == qs[n - 1];
    if AnyQosStale(num, qs[..n]) {
      var j :| 0 <= j < n && QosStale(num, qs[..n][j]);
      if j < n - 1 {
        assert QosStale(num, qs[..n - 1][j]);
      }
    }
    if AnyQosStale(num, qs[..n - 1]) {
      var j :| 0 <= j < n - 1 && QosStale(num, qs[..n - 1][j]);
      assert QosStale(num, qs[..n][j]);
    }
  }

  /** ... and has written every entry it went through, as it now stands. */
  lemma {:induction false} QosLoopSteps(num: string -> Result<(int, int)>, w: Qos -> Option<string>, call: Qos -> Step,
                                        s: KindPass, n: nat)
    requires n <= |s.l| && s.err.None?
    ensures var r := QosLoop(num, w, call, s, n);
            r.err.None? ==> r.steps == s.steps + Map(r.l[..n], call)
    decreases n
  {
    var r := QosLoop(num, w, call, s, n);
    if n > 0 && r.err.None? {
      QosBack(num, w, call, s, n);
      var p := QosLoop(num, w, call, s, n - 1);
      QosLoopSteps(num, w, call, s, n - 1);
      var lp := p.l;
      var x := QosRenumbered(lp[n - 1], num(lp[n - 1].path).value);
      UpdatePrefix(lp, n - 1, x);
      MapSnoc(lp[..n - 1], x, call);
      Assoc(s.steps, Map(lp[..n - 1], call), [call(x)]);
    }
  }

  /** The loop over a whole kind, when it succeeds. */
  lemma QosKindSucceeds(num: string -> Result<(int, int)>, write: (QosType, string) -> Option<string>,
                        p: Run, t: QosType)
    requires p.err.None?
    ensures var r := WithKind(p, t, QosLoop(num, QosWriter(write, t), QosWriteOf(t), KindOf(p, t), |QosOf(p.doc, t)|));
            r.err.None? ==>
              KindHealed(num, p.doc, r.doc, t) &&
              r.dirty == (p.dirty || AnyQosStale(num, QosOf(p.doc, t))) &&
              r.steps == p.steps + Map(QosOf(r.doc, t), QosWriteOf(t))
  {
    var s := KindOf(p, t);
    var n := |s.l|;
    var w, call := QosWriter(write, t), QosWriteOf(t);
    var k := QosLoop(num, w, call, s, n);
    QosLoopHealed(num, w, call, s, n);
    QosLoopDirty(num, w, call, s, n);
    QosLoopSteps(num, w, call, s, n);
    assert s.l[..n] == s.l;
    assert k.l[..n] == k.l;
  }

  /** One more kind of a loop that has not failed. */
  lemma KindsSnoc(num: string -> Result<(int, int)>, write: (QosType, string) -> Option<string>,
                  s: Run, ks: seq<QosType>, k: nat)
    requires k < |ks| && KindsLoop(num, write, s, ks[..k]).err.None?
    ensures var p := KindsLoop(num, write, s, ks[..k]);
            KindsLoop(num, write, s, ks[..k + 1]) ==
            WithKind(p, ks[k], QosLoop(num, QosWriter(write, ks[k]), QosWriteOf(ks[k]), KindOf(p, ks[k]), |QosOf(p.doc, ks[k])|))
  {
    assert ks[..k + 1][..k] == ks[..k];
  }

  /** After a failure the loop over the kinds makes no more calls. */
  lemma {:induction false} KindsStay(num: string -> Result<(int, int)>, write: (QosType, string) -> Option<string>,
                                     s: Run, ks: seq<QosType>, k: nat)
    requires k <= |ks| && KindsLoop(num, write, s, ks[..k]).err.Some?
    ensures KindsLoop(num, write, s, ks) == KindsLoop(num, write, s, ks[..k])
    decreases |ks| - k
  {
    if k < |ks| {
      assert ks[..k + 1][..k] == ks[..k];
      KindsStay(num, write, s, ks, k + 1);
    } else {
      assert ks[..k] == ks;
    }
  }

  /** Writes of kinds whose lists agree are the same. */
  lemma {:induction false} AllQosWritesSame(d: HookDoc, d': HookDoc, ks: seq<QosType>)
    requires forall k :: 0 <= k < |ks| ==> QosOf(d, ks[k]) == QosOf(d', ks[k])
    ensures AllQosWrites(d, ks) == AllQosWrites(d', ks)
    decreases |ks|
  {
    if |ks| > 0 {
      AllQosWritesSame(d, d', ks[..|ks| - 1]);
    }
  }

  /** When the loop over distinct kinds succeeds, every entry of each of
    * them is healed ... */
  lemma {:induction false} KindsHealed(num: string -> Result<(int, int)>, write: (QosType, string) -> Option<string>,
                                       s: Run, ks: seq<QosType>)
    requires s.err.None? && Distinct(ks)
    ensures var r := KindsLoop(num, write, s, ks);
            r.err.None? ==> forall k :: 0 <= k < |ks| ==> KindHealed(num, s.doc, r.doc, ks[k])
    decreases |ks|
  {
    var r := KindsLoop(num, write, s, ks);
    if |ks| > 0 && r.err.None? {
      var pre, t := ks[..|ks| - 1], ks[|ks| - 1];
      var p := KindsLoop(num, write, s, pre);
      assert p.err.None?;
      LastNotInPrefix(ks);
      KindsHealed(num, write, s, pre);
      QosKindSucceeds(num, write, p, t);
      assert QosOf(p.doc, t) == QosOf(s.doc, t);
      forall k | 0 <= k < |ks|
        ensures KindHealed(num, s.doc, r.doc, ks[k])
      {
        if k < |ks| - 1 {
          assert ks[k] == pre[k] && ks[k] != t;
          assert KindHealed(num, s.doc, p.doc, pre[k]);
        }
      }
    }
  }

  /** The last kind is not among the earlier ones. */
  lemma LastNotInPrefix(ks: seq<QosType>)
    requires |ks| > 0 && Distinct(ks)
    ensures ks[|ks| - 1] !in ks[..|ks| - 1] && Distinct(ks[..|ks| - 1])
  {
  }

  lemma AnyKindStaleSnoc(num: string -> Result<(int, int)>, d: HookDoc, ks: seq<QosType>)
    requires |ks| > 0
    ensures AnyKindStale(num, d, ks) ==
            (AnyKindStale(num, d, ks[..|ks| - 1]) || AnyQosStale(num, QosOf(d, ks[|ks| - 1])))
  {
    var pre := ks[..|ks| - 1];
    if AnyKindStale(num, d, ks) {
      var k :| 0 <= k < |ks| && AnyQosStale(num, QosOf(d, ks[k]));
      if k < |ks| - 1 {
        assert pre[k] == ks[k];
      }
    }
    if AnyKindStale(num, d, pre) {
      var k :| 0 <= k < |pre| && AnyQosStale(num, QosOf(d, pre[k]));
      assert ks[k] == pre[k];
    }
  }

  /** ... the store is dirty exactly when one was stale ... */
  lemma {:induction false} KindsDirty(num: string -> Result<(int, int)>, write: (QosType, string) -> Option<string>,
                                      s: Run, ks: seq<QosType>)
    requires s.err.None? && Distinct(ks)
    ensures var r := KindsLoop(num, write, s, ks);
            r.err.None? ==> r.dirty == (s.dirty || AnyKindStale(num, s.doc, ks))
    decreases |ks|
  {
    var r := KindsLoop(num, write, s, ks);
    if |ks| > 0 && r.err.None? {
      var pre, t := ks[..|ks| - 1], ks[|ks| - 1];
      var p := KindsLoop(num, write, s, pre);
      assert p.err.None?;
      LastNotInPrefix(ks);
      KindsDirty(num, write, s, pre);
      QosKindSucceeds(num, write, p, t);
      assert QosOf(p.doc, t) == QosOf(s.doc, t);
      AnyKindStaleSnoc(num, s.doc, ks);
    }
  }

  /** ... and every entry was written, kind by kind, in the stored order. */
  lemma {:induction false} KindsSteps(num: string -> Result<(int, int)>, write: (QosType, string) -> Option<string>,
                                      s: Run, ks: seq<QosType>)
    requires s.err.None? && Distinct(ks)
    ensures var r := KindsLoop(num, write, s, ks);
            r.err.None? ==> r.steps == s.steps + AllQosWrites(r.doc, ks)
    decreases |ks|
  {
    var r := KindsLoop(num, write, s, ks);
    if |ks| > 0 && r.err.None? {
      var pre, t := ks[..|ks| - 1], ks[|ks| - 1];
      var p := KindsLoop(num, write, s, pre);
      assert p.err.None?;
      LastNotInPrefix(ks);
      KindsSteps(num, write, s, pre);
      QosKindSucceeds(num, write, p, t);
      assert QosTouched(p.doc, r.doc, [t]);
      forall k | 0 <= k < |pre|
        ensures QosOf(p.doc, pre[k]) == QosOf(r.doc, pre[k])
      {
        assert pre[k] != t;
      }
      AllQosWritesSame(p.doc, r.doc, pre);
      assert AllQosWrites(r.doc, ks) == AllQosWrites(r.doc, pre) + Map(QosOf(r.doc, t), QosWriteOf(t));
      Assoc(s.steps, AllQosWrites(r.doc, pre), Map(QosOf(r.doc, t), QosWriteOf(t)));
    }
  }

  /** Every kind is visited. */
  lemma QosOrderComplete(t: QosType)
    ensures t in QosOrder && Distinct(QosOrder)
  {
    match t
    case ReadIOPS => assert QosOrder[0] == t;
    case WriteIOPS => assert QosOrder[1] == t;
    case ReadBps => assert QosOrder[2] == t;
    case WriteBps => assert QosOrder[3] == t;
    case BlkioWeight => assert QosOrder[4] == t;
  }

  /** The outcome of `UpdateQos`: nothing but the QoS entries changes in
    * the store; when it succeeds, every entry of every QoS list now holds
    * the numbers its path has, and the store is dirty exactly when one of
    * them was stale. */
  lemma UpdateQosHeals(env: HookEnv, s: Run)
    requires s.err.None?
    ensures var r := UpdateQosSpec(env, s);
            r.doc.binds == s.doc.binds && r.doc.devices == s.doc.devices &&
            r.doc.nics == s.doc.nics && r.doc.routes == s.doc.routes &&
            (r.err.None? ==>
              (forall t :: KindHealed(Numbers(env), s.doc, r.doc, t)) &&
              r.dirty == (s.dirty || exists t :: AnyQosStale(Numbers(env), QosOf(s.doc, t))))
  {
    var num := Numbers(env);
    var r := UpdateQosSpec(env, s);
    QosOrderComplete(ReadIOPS);
    KindsHealed(num, env.dev.qosWrite, s, QosOrder);
    KindsDirty(num, env.dev.qosWrite, s, QosOrder);
    if r.err.None? {
      forall t: QosType
        ensures KindHealed(num, s.doc, r.doc, t)
      {
        QosOrderComplete(t);
      }
      if exists t :: AnyQosStale(num, QosOf(s.doc, t)) {
        var t :| AnyQosStale(num, QosOf(s.doc, t));
        QosOrderComplete(t);
      }
    }
  }

  /** When `UpdateQos` succeeds, every entry, as updated, was written to the
    * blkio file of its kind, kind by kind in the order read IOPS, write
    * IOPS, read bps, write bps, weight. */
  lemma UpdateQosWrites(env: HookEnv, s: Run)
    requires s.err.None?
    ensures var r := UpdateQosSpec(env, s);
            r.err.None? ==> r.steps == s.steps + AllQosWrites(r.doc, QosOrder)
  {
    QosOrderComplete(ReadIOPS);
    KindsSteps(Numbers(env), env.dev.qosWrite, s, QosOrder);
  }

  /** One entry, as `UpdateQos`' loop body runs it. */
  method UpdateQosEntry(env: HookEnv, cfg: ContainerHookConfig, t: QosType, i: nat, steps0: seq<Step>,
                        ghost num: string -> Result<(int, int)>, ghost write: (QosType, string) -> Option<string>)
    returns (steps: seq<Step>, err: Option<string>)
    modifies cfg
    requires num == Numbers(env) && write == env.dev.qosWrite && i < |QosOf(cfg.Doc(), t)|
    ensures KindOf(State(cfg, steps, err), t) == QosStep(num, QosWriter(write, t), QosWriteOf(t), old(KindOf(State(cfg, steps0, None), t)), i)
    ensures cfg.Doc() == WithQos(old(cfg.Doc()), t, QosOf(cfg.Doc(), t))
  {
    var q := QosOf(cfg.Doc(), t)[i];
    var n := DeviceParse.GetDeviceNum(q.path, env.fromPath);
    if n.Err? {
      WithQosSame(cfg.Doc(), t);
      return steps0, Some(n.msg);
    }
    cfg.UpdateQosDevNum(t, i, n.value.0, n.value.1);
    var line := QosString(QosRenumbered(q, n.value));
    steps := steps0 + [Dev(LibDevice.QosCall(t, line))];
    err := env.dev.qosWrite(t, line);
  }

  /** One more entry of the loop over a kind that has not failed. */
  method UpdateQosTurn(env: HookEnv, cfg: ContainerHookConfig, t: QosType, i: nat, steps0: seq<Step>,
                       ghost num: string -> Result<(int, int)>, ghost write: (QosType, string) -> Option<string>,
                       ghost d0: HookDoc, ghost k0: KindPass, ghost cur: KindPass)
    returns (steps: seq<Step>, err: Option<string>, ghost next: KindPass)
    modifies cfg
    requires num == Numbers(env) && write == env.dev.qosWrite && i < |k0.l|
    requires cur == QosLoop(num, QosWriter(write, t), QosWriteOf(t), k0, i) && cur.err.None?
    requires KindOf(State(cfg, steps0, None), t) == cur && cfg.Doc() == WithQos(d0, t, cur.l)
    ensures next == QosLoop(num, QosWriter(write, t), QosWriteOf(t), k0, i + 1)
    ensures KindOf(State(cfg, steps, err), t) == next && cfg.Doc() == WithQos(d0, t, next.l)
  {
    QosSnoc(num, QosWriter(write, t), QosWriteOf(t), k0, i);
    steps, err := UpdateQosEntry(env, cfg, t, i, steps0, num, write);
    next := QosStep(num, QosWriter(write, t), QosWriteOf(t), cur, i);
    WithQosTwice(d0, t, cur.l, next.l);
  }

  /** The loop over the entries of one kind. */
  method UpdateQosKind(env: HookEnv, cfg: ContainerHookConfig, t: QosType, steps0: seq<Step>,
                       ghost num: string -> Result<(int, int)>, ghost write: (QosType, string) -> Option<string>)
    returns (steps: seq<Step>, err: Option<string>)
    modifies cfg
    requires num == Numbers(env) && write == env.dev.qosWrite
    ensures var s0 := old(State(cfg, steps0, None));
            State(cfg, steps, err) == WithKind(s0, t, QosLoop(num, QosWriter(write, t), QosWriteOf(t), KindOf(s0, t), |QosOf(s0.doc, t)|))
  {
    ghost var s0 := State(cfg, steps0, None);
    ghost var k0 := KindOf(s0, t);
    steps, err := steps0, None;
    var i := 0;
    ghost var cur := k0;
    WithQosSame(s0.doc, t);
    while i < |QosOf(cfg.Doc(), t)| && err.None?
      invariant i <= |k0.l|
      invariant cur == QosLoop(num, QosWriter(write, t), QosWriteOf(t), k0, i)
      invariant KindOf(State(cfg, steps, err), t) == cur && cfg.Doc() == WithQos(s0.doc, t, cur.l)
    {
      steps, err, cur := UpdateQosTurn(env, cfg, t, i, steps, num, write, s0.doc, k0, cur);
      i := i + 1;
    }
    QosDone(num, QosWriter(write, t), QosWriteOf(t), k0, i, cur);
  }

  /** `UpdateQos` as the source runs it: the five lists in turn, stopping
    * at the first entry whose numbers or write fail. */
  method UpdateQos(env: HookEnv, cfg: ContainerHookConfig, steps0: seq<Step>)
    returns (steps: seq<Step>, err: Option<string>)
    modifies cfg
    ensures State(cfg, steps, err) == UpdateQosSpec(env, old(State(cfg, steps0, None)))
  {
    ghost var s0 := State(cfg, steps0, None);
    ghost var num := Numbers(env);
    steps, err := steps0, None;
    var ks := QosOrder;
    var k := 0;
    while k < |ks| && err.None?
      invariant 0 <= k <= |ks|
      invariant KindsLoop(num, env.dev.qosWrite, s0, ks[..k]) == State(cfg, steps, err)
    {
      KindsSnoc(num, env.dev.qosWrite, s0, ks, k);
      steps, err := UpdateQosKind(env, cfg, ks[k], steps, num, env.dev.qosWrite);
      k := k + 1;
    }
    if err.Some? {
      KindsStay(num, env.dev.qosWrite, s0, ks, k);
    } else {
      assert ks[..k] == ks;
    }
  }

  // ---------------------------------------------------------------------
  // UpdateNetwork

  /** Adding an interface, and a route, through the namespace of the
    * container's process, as values. */
  function NicAdder(env: HookEnv): InterfaceConf -> Option<string>
  {
    c => LibNic.AddNicToContainer(env.nic.(netNs := NetnsOf(env.state.pid)), c)
  }

  function RouteAdder(env: HookEnv): Route -> Option<string>
  {
    r => LibRoute.AddRouteToContainer(env.route.(netNs := NetnsOf(env.state.pid)), r)
  }

  function NicStep(): InterfaceConf -> Step
  {
    c => AddNic(c)
  }

  function RouteStep(): Route -> Step
  {
    r => AddRoute(r)
  }

  /** The bind mount of the process's namespace on the container's netns
    * file. */
  function NetnsBind(st: HookState): Step
  {
    NetnsMount(NetnsOf(st.pid), NetnsFile(st.id))
  }

  /** `UpdateNetwork`: the netns directory, file, mode and bind mount, then
    * the stored interfaces, then the stored routes, stopping at the first
    * failure.  The store is not touched. */
  function UpdateNetworkSpec(env: HookEnv, s: Run): (r: Run)
    ensures r.doc == s.doc && r.dirty == s.dirty
  {
    var ops := env.netns;
    if ops.mkdir.Some? then s.(err := ops.mkdir)
    else if ops.create.Some? then s.(err := ops.create)
    else if ops.chmod.Some? then s.(err := ops.chmod)
    else
      var m := s.(steps := s.steps + [NetnsBind(env.state)], err := ops.mount);
      if m.err.Some? then m
      else
        var t := Calls(s.doc.nics, NicStep(), NicAdder(env), m);
        if t.err.Some? then t else Calls(s.doc.routes, RouteStep(), RouteAdder(env), t)
  }

  /** Whether the netns file is set up. */
  predicate NetnsReady(ops: NetnsOps)
  {
    ops.mkdir.None? && ops.create.None? && ops.chmod.None? && ops.mount.None?
  }

  /** Two loops of calls, the second run when the first gets through,
    * get through exactly when every call of both does; then every call of
    * both was made, in order. */
  lemma TwoCallsSucceed<A, B>(xs: seq<A>, cx: A -> Step, ax: A -> Option<string>,
                              ys: seq<B>, cy: B -> Step, ay: B -> Option<string>, m: Run)
    requires m.err.None?
    ensures var t := Calls(xs, cx, ax, m);
            var r := if t.err.Some? then t else Calls(ys, cy, ay, t);
            (r.err.None? <==> (forall j :: 0 <= j < |xs| ==> ax(xs[j]).None?) && (forall j :: 0 <= j < |ys| ==> ay(ys[j]).None?)) &&
            (r.err.None? ==> r.steps == m.steps + Map(xs, cx) + Map(ys, cy))
  {
    CallsStopAtFirstFailure(xs, cx, ax, m);
    var t := Calls(xs, cx, ax, m);
    if t.err.None? {
      CallsStopAtFirstFailure(ys, cy, ay, t);
    }
  }

  /** `UpdateNetwork` succeeds exactly when the netns file is set up and
    * every stored interface and route is added; then the namespace was
    * mounted, and every interface, then every route, added in the stored
    * order. */
  lemma UpdateNetworkSucceeds(env: HookEnv, s: Run)
    requires s.err.None?
    ensures var r := UpdateNetworkSpec(env, s);
            r.err.None? <==>
              NetnsReady(env.netns) &&
              (forall j :: 0 <= j < |s.doc.nics| ==> NicAdder(env)(s.doc.nics[j]).None?) &&
              (forall j :: 0 <= j < |s.doc.routes| ==> RouteAdder(env)(s.doc.routes[j]).None?)
    ensures var r := UpdateNetworkSpec(env, s);
            r.err.None? ==>
              r.steps == s.steps + [NetnsBind(env.state)] + Map(s.doc.nics, NicStep()) + Map(s.doc.routes, RouteStep())
  {
    if NetnsReady(env.netns) {
      var m := s.(steps := s.steps + [NetnsBind(env.state)], err := None);
      TwoCallsSucceed(s.doc.nics, NicStep(), NicAdder(env), s.doc.routes, RouteStep(), RouteAdder(env), m);
    }
  }

  /** The steps of an `UpdateNetwork` that got through. */
  lemma UpdateNetworkSteps(env: HookEnv, s: Run)
    requires s.err.None? && UpdateNetworkSpec(env, s).err.None?
    ensures UpdateNetworkSpec(env, s).steps ==
            s.steps + [NetnsBind(env.state)] + Map(s.doc.nics, NicStep()) + Map(s.doc.routes, RouteStep())
  {
    UpdateNetworkSucceeds(env, s);
  }

  /** A failing interface stops `UpdateNetwork`: the interfaces before it
    * were added, no route is. */
  lemma UpdateNetworkStopsAtNic(env: HookEnv, s: Run, i: nat)
    requires s.err.None? && NetnsReady(env.netns)
    requires i < |s.doc.nics| && NicAdder(env)(s.doc.nics[i]).Some?
    requires forall j :: 0 <= j < i ==> NicAdder(env)(s.doc.nics[j]).None?
    ensures UpdateNetworkSpec(env, s) ==
            s.(steps := s.steps + [NetnsBind(env.state)] + Map(s.doc.nics[..i + 1], NicStep()),
               err := NicAdder(env)(s.doc.nics[i]))
  {
    var m := s.(steps := s.steps + [NetnsBind(env.state)], err := None);
    CallsFailAt(s.doc.nics, i, NicStep(), NicAdder(env), m);
  }

  /** `UpdateNetwork` as the source runs it. */
  method UpdateNetwork(env: HookEnv, cfg: ContainerHookConfig, steps0: seq<Step>)
    returns (steps: seq<Step>, err: Option<string>)
    ensures State(cfg, steps, err) == UpdateNetworkSpec(env, State(cfg, steps0, None))
  {
    var ops := env.netns;
    if ops.mkdir.Some? {
      return steps0, ops.mkdir;
    }
    if ops.create.Some? {
      return steps0, ops.create;
    }
    if ops.chmod.Some? {
      return steps0, ops.chmod;
    }
    steps := steps0 + [NetnsBind(env.state)];
    err := ops.mount;
    if err.Some? {
      return;
    }
    steps, err := MakeCalls(cfg.nics, NicStep(), NicAdder(env), steps, State(cfg, steps, None));
    if err.Some? {
      return;
    }
    steps, err := MakeCalls(cfg.routes, RouteStep(), RouteAdder(env), steps, State(cfg, steps, None));
  }

  // ---------------------------------------------------------------------
  // DynLoadModule

  /** The environment variable that lists the kernel modules to load. */
  const ModulesKey: string := "KERNEL_MODULES"

  const BadModuleName: string := "[module-hook] Failed to modprobe modules by module name is incorrect:"

  /** The characters `isValidModuleName` accepts. */
  predicate ModuleChar(c: char)
  {
    'A' <= c <= 'Z' || 'a' <= c <= 'z' || '0' <= c <= '9' || c == '-' || c == '_'
  }

  predicate ValidModuleName(m: string)
  {
    forall i :: 0 <= i < |m| ==> ModuleChar(m[i])
  }

  /** The entry names the key: it contains "KEY=" and what comes before
    * its first '=' is the key. */
  predicate IsKeyEntry(e: string, key: string)
  {
    Contains(e, key + "=") && Split(e, '=')[0] == key
  }

  function ModulesEntry(): string -> bool
  {
    e => IsKeyEntry(e, ModulesKey)
  }

  /** A text that contains a character's text contains the character. */
  lemma {:induction false} ContainsChar(s: string, sub: string, c: char)
    requires Contains(s, sub) && c in sub
    ensures c in s
    decreases |s|
  {
    if !HasPrefix(s, sub) {
      ContainsChar(s[1..], sub, c);
    }
  }

  /** For a key without '=', naming the key is starting with "KEY=". */
  lemma KeyEntryPrefix(e: string, key: string)
    requires '=' !in key
    ensures IsKeyEntry(e, key) <==> HasPrefix(e, key + "=")
    ensures IsKeyEntry(e, key) ==> |Split(e, '=')| >= 2
  {
    if IsKeyEntry(e, key) {
      KeyEntryStarts(e, key);
    }
    if HasPrefix(e, key + "=") {
      StartsKeyEntry(e, key);
    }
  }

  /** An entry naming the key starts with "KEY=" and has a value. */
  lemma KeyEntryStarts(e: string, key: string)
    requires '=' !in key && IsKeyEntry(e, key)
    ensures HasPrefix(e, key + "=") && |Split(e, '=')| >= 2
  {
    var k := key + "=";
    assert k[|key|] == '=';
    ContainsChar(e, k, '=');
    SplitHead(e, '=');
    var i := IndexOf(e, '=').value;
    assert e[..i] == key;
    assert e[..|k|] == e[..i] + [e[i]];
    if Count(e, '=') == 0 {
      CountZero(e, '=');
    }
  }

  /** An entry starting with "KEY=" names the key. */
  lemma StartsKeyEntry(e: string, key: string)
    requires '=' !in key && HasPrefix(e, key + "=")
    ensures IsKeyEntry(e, key)
  {
    var k := key + "=";
    assert e[..|k|][|key|] == '=';
    assert e[|key|] == '=';
    assert e[..|k|][..|key|] == e[..|key|];
    assert '=' !in e[..|key|];
    SplitHead(e, '=');
  }

  /** What follows the key's '='. */
  function ModulesValue(e: string): string
    requires IsKeyEntry(e, ModulesKey)
  {
    KeyEntryPrefix(e, ModulesKey);
    Split(e, '=')[1]
  }

  /** The names listed, in order, skipping empty items; the first invalid
    * name is an error. */
  function ModuleArgs(items: seq<string>): Result<seq<string>>
    decreases |items|
  {
    if |items| == 0 then Ok([])
    else
      var m := items[|items| - 1];
      match ModuleArgs(items[..|items| - 1])
      case Err(e) => Err(e)
      case Ok(ms) =>
        if m == "" then Ok(ms)
        else if ValidModuleName(m) then Ok(ms + [m])
        else Err(BadModuleName + m)
  }

  /** The item the source rejects. */
  function BadItem(): string -> bool
  {
    m => m != "" && !ValidModuleName(m)
  }

  function NonEmpty(): string -> bool
  {
    m => m != ""
  }

  /** The list is the non-empty items, when none of them is invalid;
    * otherwise the error names the first invalid one. */
  lemma {:induction false} ModuleArgsItems(items: seq<string>)
    ensures match FirstIndex(items, BadItem())
            case None => ModuleArgs(items) == Ok(Filter(items, NonEmpty()))
            case Some(i) => ModuleArgs(items) == Err(BadModuleName + items[i])
    decreases |items|
  {
    if |items| > 0 {
      var pre, m := items[..|items| - 1], items[|items| - 1];
      ModuleArgsItems(pre);
      assert pre + [m] == items;
      FilterAppend(pre, [m], NonEmpty());
      assert Filter([m], NonEmpty()) == if m != "" then [m] else [];
      AppendNil(Filter(pre, NonEmpty()));
      FirstIndexSnoc(pre, m, BadItem());
      match FirstIndex(pre, BadItem())
      case Some(i) =>
        assert items[i] == pre[i];
      case None =>
        assert items[|pre|] == m;
    }
  }

  /** The first match of a sequence with one more element. */
  lemma FirstIndexSnoc<T>(s: seq<T>, x: T, p: T -> bool)
    ensures FirstIndex(s + [x], p) ==
            if FirstIndex(s, p).Some? then FirstIndex(s, p) else if p(x) then Some(|s|) else None
  {
    var t := s + [x];
    match FirstIndex(s, p)
    case Some(i) =>
      assert t[i] == s[i];
      FirstIndexIs(t, p, i);
    case None =>
      assert forall j :: 0 <= j < |s| ==> t[j] == s[j];
      if p(x) {
        FirstIndexIs(t, p, |s|);
      }
  }

  /** The first match is the match with none before it. */
  lemma FirstIndexIs<T>(s: seq<T>, p: T -> bool, i: nat)
    requires i < |s| && p(s[i]) && forall j :: 0 <= j < i ==> !p(s[j])
    ensures FirstIndex(s, p) == Some(i)
  {
  }

  /** `DynLoadModule`: the first environment entry naming KERNEL_MODULES
    * gives the modules, split on ','; with none to load nothing is run,
    * otherwise `modprobe -a` with them. */
  function DynLoadModuleSpec(env: HookEnv, spec: Spec, s: Run): Run
  {
    match FirstIndex(spec.env, ModulesEntry())
    case None => s
    case Some(i) =>
      match ModuleArgs(Split(ModulesValue(spec.env[i]), ','))
      case Err(e) => s.(err := Some(e))
      case Ok(ms) =>
        if |ms| == 0 then s
        else s.(steps := s.steps + [Modprobe(["-a"] + ms)], err := env.modprobe(["-a"] + ms))
  }

  /** What `DynLoadModule` asks of modprobe: nothing without an entry or
    * without a non-empty item, an error for an invalid item, and otherwise
    * "-a" and the entry's non-empty items, in order, each a valid name. */
  lemma DynLoadModuleArgs(env: HookEnv, spec: Spec, s: Run)
    ensures var r := DynLoadModuleSpec(env, spec, s);
            match FirstIndex(spec.env, ModulesEntry())
            case None => r == s
            case Some(i) =>
              var items := Split(ModulesValue(spec.env[i]), ',');
              var ms := Filter(items, NonEmpty());
              if FirstIndex(items, BadItem()).Some? then
                r == s.(err := Some(BadModuleName + items[FirstIndex(items, BadItem()).value]))
              else if |ms| == 0 then r == s
              else r == s.(steps := s.steps + [Modprobe(["-a"] + ms)], err := env.modprobe(["-a"] + ms)) &&
                   forall j :: 0 <= j < |ms| ==> ms[j] != "" && ValidModuleName(ms[j])
  {
    match FirstIndex(spec.env, ModulesEntry())
    case None =>
    case Some(i) =>
      var items := Split(ModulesValue(spec.env[i]), ',');
      ModuleArgsItems(items);
      if FirstIndex(items, BadItem()).None? {
        KeptItemsValid(items);
      }
  }

  /** With no invalid item, every non-empty item is a valid name. */
  lemma KeptItemsValid(items: seq<string>)
    requires FirstIndex(items, BadItem()).None?
    ensures var ms := Filter(items, NonEmpty());
            forall j :: 0 <= j < |ms| ==> ms[j] != "" && ValidModuleName(ms[j])
  {
    var ms := Filter(items, NonEmpty());
    forall j | 0 <= j < |ms|
      ensures ms[j] != "" && ValidModuleName(ms[j])
    {
      assert NonEmpty()(ms[j]);
      var k :| 0 <= k < |items| && items[k] == ms[j];
      assert !BadItem()(items[k]);
    }
  }

  /** Only the first entry naming the key counts: entries after it are
    * ignored. */
  lemma DynLoadModuleFirstEntry(env: HookEnv, spec: Spec, more: seq<string>, s: Run)
    requires FirstIndex(spec.env, ModulesEntry()).Some?
    ensures DynLoadModuleSpec(env, spec.(env := spec.env + more), s) == DynLoadModuleSpec(env, spec, s)
  {
    var i := FirstIndex(spec.env, ModulesEntry()).value;
    var envs := spec.env + more;
    assert envs[i] == spec.env[i];
    FirstIndexIs(envs, ModulesEntry(), i);
  }

  /** The module list of a value, as `DynLoadModule`'s inner loop builds it. */
  method ModuleList(value: string) returns (r: Result<seq<string>>)
    ensures r == ModuleArgs(Split(value, ','))
  {
    var items := Split(value, ',');
    var ms: seq<string> := [];
    var k := 0;
    while k < |items|
      invariant 0 <= k <= |items|
      invariant ModuleArgs(items[..k]) == Ok(ms)
    {
      assert items[..k + 1][..k] == items[..k];
      var m := items[k];
      if m != "" {
        if ValidModuleName(m) {
          ms := ms + [m];
        } else {
          r := Err(BadModuleName + m);
          ModuleArgsStay(items, k + 1);
          return;
        }
      }
      k := k + 1;
    }
    assert items[..k] == items;
    r := Ok(ms);
  }

  /** After an error the list stays failed. */
  lemma {:induction false} ModuleArgsStay(items: seq<string>, k: nat)
    requires k <= |items| && ModuleArgs(items[..k]).Err?
    ensures ModuleArgs(items) == ModuleArgs(items[..k])
    decreases |items| - k
  {
    if k < |items| {
      assert items[..k + 1][..k] == items[..k];
      ModuleArgsStay(items, k + 1);
    } else {
      assert items[..k] == items;
    }
  }

  /** `DynLoadModule` as the source runs it: the environment is searched
    * for the entry, its modules collected, and modprobe run when there is
    * one to load. */
  method DynLoadModule(env: HookEnv, spec: Spec, cfg: ContainerHookConfig, steps0: seq<Step>)
    returns (steps: seq<Step>, err: Option<string>)
    ensures State(cfg, steps, err) == DynLoadModuleSpec(env, spec, State(cfg, steps0, None))
  {
    steps, err := steps0, None;
    var args: seq<string> := ["-a"];
    var i := 0;
    while i < |spec.env|
      invariant 0 <= i <= |spec.env|
      invariant forall j :: 0 <= j < i ==> !ModulesEntry()(spec.env[j])
    {
      var e := spec.env[i];
      if Contains(e, ModulesKey + "=") {
        KeyEntryPrefix(e, ModulesKey);
        var parts := Split(e, '=');
        if parts[0] == ModulesKey {
          FirstIndexIs(spec.env, ModulesEntry(), i);
          var ms := ModuleList(parts[1]);
          if ms.Err? {
            return steps0, Some(ms.msg);
          }
          args := args + ms.value;
          break;
        }
      }
      i := i + 1;
    }
    if |args| == 1 {
      return;
    }
    steps := steps0 + [Modprobe(args)];
    err := env.modprobe(args);
  }

  // ---------------------------------------------------------------------
  // The prestart phase

  /** The actions of the phase. */
  datatype Action =
    | SharePathAction | AdjustUsernsAction | AddDevicesAction | AddBindsAction
    | UpdateQosAction | UpdateNetworkAction | DynLoadModuleAction | RelabelAction

  /** `prestartHook`'s list: the relabel action comes last, and only when
    * asked for. */
  function PrestartActions(withRelabel: bool): seq<Action>
  {
    [SharePathAction, AdjustUsernsAction, AddDevicesAction, AddBindsAction,
     UpdateQosAction, UpdateNetworkAction, DynLoadModuleAction] +
    (if withRelabel then [RelabelAction] else [])
  }

  /** `AddBinds` never fails and leaves the store alone. */
  function AddBindsSpec(env: HookEnv, spec: Spec, s: Run): (r: Run)
  {
    s.(steps := s.steps + FlatMap(s.doc.binds, BindStepsOf(env, spec)))
  }

  /** The relabel action, whose work is not part of this model: its
    * answer is given. */
  function RelabelSpec(env: HookEnv, s: Run): Run
  {
    s.(steps := s.steps + [Relabel], err := env.relabel)
  }

  function RunAction(env: HookEnv, spec: Spec, a: Action, s: Run): Run
    requires UdevPre(env)
  {
    match a
    case SharePathAction => SharePath(env, s)
    case AdjustUsernsAction => AdjustUsernsSpec(env, spec, s)
    case AddDevicesAction => AddDevicesSpec(env, spec, s)
    case AddBindsAction => AddBindsSpec(env, spec, s)
    case UpdateQosAction => UpdateQosSpec(env, s)
    case UpdateNetworkAction => UpdateNetworkSpec(env, s)
    case DynLoadModuleAction => DynLoadModuleSpec(env, spec, s)
    case RelabelAction => RelabelSpec(env, s)
  }

  /** The actions in order, until one fails; its error is the phase's. */
  function RunActions(env: HookEnv, spec: Spec, acts: seq<Action>, s: Run): Run
    requires UdevPre(env)
    decreases |acts|
  {
    if |acts| == 0 then s
    else
      var p := RunActions(env, spec, acts[..|acts| - 1], s);
      if p.err.Some? then p else RunAction(env, spec, acts[|acts| - 1], p)
  }

  /** `prestartHook`. */
  function PrestartSpec(env: HookEnv, spec: Spec, withRelabel: bool, s: Run): Run
    requires UdevPre(env)
  {
    RunActions(env, spec, PrestartActions(withRelabel), s)
  }

  /** No action changes the stored binds, interfaces or routes, or the
    * number of stored devices. */
  lemma RunActionKeeps(env: HookEnv, spec: Spec, a: Action, s: Run)
    requires UdevPre(env)
    ensures var r := RunAction(env, spec, a, s);
            r.doc.binds == s.doc.binds && r.doc.nics == s.doc.nics && r.doc.routes == s.doc.routes &&
            |r.doc.devices| == |s.doc.devices|
  {
    match a
    case SharePathAction =>
    case AdjustUsernsAction =>
    case AddDevicesAction =>
    case AddBindsAction =>
    case UpdateQosAction =>
      var r := UpdateQosSpec(env, s);
      assert QosTouched(s.doc, r.doc, QosOrder);
    case UpdateNetworkAction =>
    case DynLoadModuleAction =>
    case RelabelAction =>
  }

  /** The prestart phase leaves the stored binds, interfaces and routes as
    * they were, whatever happens. */
  lemma {:induction false} PrestartKeeps(env: HookEnv, spec: Spec, acts: seq<Action>, s: Run)
    requires UdevPre(env)
    ensures var r := RunActions(env, spec, acts, s);
            r.doc.binds == s.doc.binds && r.doc.nics == s.doc.nics && r.doc.routes == s.doc.routes &&
            |r.doc.devices| == |s.doc.devices|
    decreases |acts|
  {
    if |acts| > 0 {
      var p := RunActions(env, spec, acts[..|acts| - 1], s);
      PrestartKeeps(env, spec, acts[..|acts| - 1], s);
      if p.err.None? {
        RunActionKeeps(env, spec, acts[|acts| - 1], p);
      }
    }
  }

  /** One more action of a phase that has not failed. */
  lemma ActionsSnoc(env: HookEnv, spec: Spec, acts: seq<Action>, i: nat, s: Run)
    requires UdevPre(env) && i < |acts|
    ensures var p := RunActions(env, spec, acts[..i], s);
            RunActions(env, spec, acts[..i + 1], s) == if p.err.Some? then p else RunAction(env, spec, acts[i], p)
  {
    assert acts[..i + 1][..i] == acts[..i];
  }

  /** After the first failing action no other action runs: the phase ends
    * as it stood after that action. */
  lemma {:induction false} PrestartStops(env: HookEnv, spec: Spec, acts: seq<Action>, k: nat, s: Run)
    requires UdevPre(env) && k <= |acts| && RunActions(env, spec, acts[..k], s).err.Some?
    ensures RunActions(env, spec, acts, s) == RunActions(env, spec, acts[..k], s)
    decreases |acts| - k
  {
    if k < |acts| {
      ActionsSnoc(env, spec, acts, k, s);
      PrestartStops(env, spec, acts, k + 1, s);
    } else {
      assert acts[..k] == acts;
    }
  }

  /** With relabelling asked for, the phase is the phase without it, then
    * the relabel action when nothing failed before. */
  lemma PrestartRelabelLast(env: HookEnv, spec: Spec, s: Run)
    requires UdevPre(env)
    ensures var p := PrestartSpec(env, spec, false, s);
            PrestartSpec(env, spec, true, s) == if p.err.Some? then p else RelabelSpec(env, p)
  {
    var acts := PrestartActions(true);
    assert acts[..|acts| - 1] == PrestartActions(false);
  }

  /** One action, as `prestartHook`'s loop runs it. */
  method RunOne(env: HookEnv, spec: Spec, cfg: ContainerHookConfig, a: Action, steps0: seq<Step>)
    returns (steps: seq<Step>, err: Option<string>)
    modifies cfg
    requires UdevPre(env)
    ensures State(cfg, steps, err) == RunAction(env, spec, a, old(State(cfg, steps0, None)))
  {
    match a
    case SharePathAction =>
      if env.prepareHostPath.Some? {
        return steps0, env.prepareHostPath;
      }
      var b := SharedBind(env.state);
      steps, err := steps0 + [TransferBase(b)], env.transferBase(b);
    case AdjustUsernsAction =>
      var devices;
      steps, err, devices := AdjustUserns(env, spec, steps0, State(cfg, steps0, None));
    case AddDevicesAction =>
      steps, err := AddDevices(env, spec, cfg, steps0);
    case AddBindsAction =>
      steps, err := AddBinds(env, spec, cfg, steps0);
    case UpdateQosAction =>
      steps, err := UpdateQos(env, cfg, steps0);
    case UpdateNetworkAction =>
      steps, err := UpdateNetwork(env, cfg, steps0);
    case DynLoadModuleAction =>
      steps, err := DynLoadModule(env, spec, cfg, steps0);
    case RelabelAction =>
      steps, err := steps0 + [Relabel], env.relabel;
  }

  /** `prestartHook` as the source runs it: the actions in order, stopping
    * at the first error. */
  method PrestartHook(env: HookEnv, spec: Spec, cfg: ContainerHookConfig, withRelabel: bool, steps0: seq<Step>)
    returns (steps: seq<Step>, err: Option<string>)
    modifies cfg
    requires UdevPre(env)
    ensures State(cfg, steps, err) == PrestartSpec(env, spec, withRelabel, old(State(cfg, steps0, None)))
  {
    ghost var s0 := State(cfg, steps0, None);
    var acts := PrestartActions(withRelabel);
    steps, err := steps0, None;
    var i := 0;
    while i < |acts| && err.None?
      invariant 0 <= i <= |acts|
      invariant RunActions(env, spec, acts[..i], s0) == State(cfg, steps, err)
    {
      ActionsSnoc(env, spec, acts, i, s0);
      steps, err := RunOne(env, spec, cfg, acts[i], steps);
      i := i + 1;
    }
    if err.Some? {
      PrestartStops(env, spec, acts, i, s0);
    } else {
      assert acts[..i] == acts;
    }
  }
}

// What the hook phases share (hooks/isulad-hooks/prestart.go,
// hooks/syscontainer-hooks/poststop.go): the answers the host, the namespace
// driver and the kernel give, the calls the hooks make, and the re-rooting
// of a stored device or bind under the container's root file system.
module Hooks {
  import opened Wrappers
  import opened Strs
  import opened Paths
  import opened DeviceTypes
  import opened ConfigDevice
  import opened UdevRules
  import opened OciSpec
  import opened NetworkTypes
  import DeviceParse
  import BindParse
  import LibDevice
  import UdevController
  import LibNic
  import LibRoute
  import ContainerWork

  /** The udev controller's lock, whether udevd is in use, the rule file,
    * and how saving and reloading the rules go. */
  datatype UdevEnv = UdevEnv(lock: Option<string>, using: Result<bool>, file: RuleFile,
                             save: UdevController.SaveFault, reloadErr: Option<string>)

  /** The udev controller's `Lock`: only a controller that uses udevd opens
    * and locks its lock file, so only such a controller can fail to lock. */
  function UdevLock(u: UdevEnv): (r: Option<string>)
    ensures r.Some? <==> u.using == Ok(true) && u.lock.Some?
    ensures r.Some? ==> r == u.lock
  {
    if u.using == Ok(true) then u.lock else None
  }

  /** The errors of the calls made on the container's netns file: creating
    * its directory, creating, chmodding and bind-mounting it (prestart);
    * opening and unmounting it (poststop). */
  datatype NetnsOps = NetnsOps(mkdir: Option<string>, create: Option<string>, chmod: Option<string>,
                               mount: Option<string>, open: Option<string>, unmount: Option<string>)

  /** Everything a hook asks of the outside world, with the answers. */
  datatype HookEnv = HookEnv(
    state: HookState,
    dev: LibDevice.Env,                             // namespace driver, cgroup and blkio files, lsblk, transfer paths
    cgroupPath: Result<string>,                     // FindCgroupPath for the devices controller
    udev: UdevEnv,
    fromPath: (string, string) -> Result<Device>,   // DeviceFromPath
    hostView: string -> BindParse.HostView,         // what ParseBind finds for a re-rooted bind
    prepareHostPath: Option<string>,                // PrepareHostPath
    transferBase: Bind -> Option<string>,           // driver.AddTransferBase
    sysctl: (string, string) -> Option<string>,     // driver.UpdateSysctl
    storagePath: Result<string>,                    // GetContainerStoragePath
    netns: NetnsOps,
    nic: LibNic.NicEnv,
    route: LibRoute.RouteEnv,
    modprobe: seq<string> -> Option<string>,        // exec of modprobe with these arguments
    relabel: Option<string>)                        // the relabel action of the phase

  /** One call a hook makes, in the order made. */
  datatype Step =
    | Dev(call: LibDevice.Call)                     // device, cgroup, blkio, bind and transfer-path calls
    | TransferBase(bind: Bind)
    | Sysctl(key: string, value: string)
    | DriverMount(m: ContainerWork.MountMsg)
    | NetnsMount(source: string, target: string)
    | NetnsUnmount(target: string)
    | NetnsRemove(target: string)
    | AddNic(nic: InterfaceConf)
    | DelNic(nic: InterfaceConf)
    | AddRoute(route: Route)
    | Modprobe(args: seq<string>)
    | Relabel
    | RulesSaved(text: string)

  /** `IsuladToolsDirNetns`, where the netns files of containers live. */
  const NetnsDir: string := "/run/isulad-tools/netns"

  /** The netns file of a container. */
  function NetnsFile(id: string): string
  {
    JoinPath([NetnsDir, id])
  }

  /** The network namespace of a process. */
  function NetnsOf(pid: int): string
  {
    "/proc/" + IntToString(pid) + "/ns/net"
  }

  // ---------------------------------------------------------------------
  // Re-rooting stored strings

  /** `calcPathForDevice`: the stored device as a device argument whose
    * container path lies under the root file system. */
  function CalcPathForDevice(rootfs: string, m: DeviceMapping): string
  {
    m.pathOnHost + ":" + JoinPath([rootfs, m.pathInContainer]) + ":" + m.cgroupPermissions
  }

  /** The re-rooted device reads back as the stored host path, the
    * container path under the root file system, and the stored
    * permissions ("rwm" when none were stored). */
  lemma CalcPathForDeviceParses(rootfs: string, m: DeviceMapping)
    requires IsAbs(m.pathOnHost) && IsAbs(JoinPath([rootfs, m.pathInContainer]))
    requires ':' !in m.pathOnHost && ':' !in JoinPath([rootfs, m.pathInContainer]) && ':' !in m.cgroupPermissions
    requires m.cgroupPermissions == "" || DeviceParse.ValidDeviceMode(m.cgroupPermissions)
    ensures DeviceParse.ParseMapping(CalcPathForDevice(rootfs, m)) ==
            Ok(DeviceParse.MappingDevice(Clean(JoinPath([rootfs, m.pathInContainer])), Clean(m.pathOnHost),
                                         if m.cgroupPermissions == "" then "rwm" else m.cgroupPermissions))
  {
    DeviceParse.ParseThreeFields(m.pathOnHost, JoinPath([rootfs, m.pathInContainer]), m.cgroupPermissions);
  }

  /** `calcPathForBind`: the stored bind with its container path put under
    * the root file system; the permission field, and whatever follows it,
    * is kept. */
  function CalcPathForBind(rootfs: string, bind: string): Result<string>
  {
    var fields := SplitN(bind, ':', 3);
    if |fields| < 3 then Err("Error: bind lack of \":\"")
    else Ok(fields[0] + ":" + JoinPath([rootfs, fields[1]]) + ":" + fields[2])
  }

  /** It fails exactly on a bind with fewer than two ':'. */
  lemma CalcPathForBindFields(rootfs: string, bind: string)
    ensures CalcPathForBind(rootfs, bind).Ok? <==> Count(bind, ':') >= 2
  {
    var fields := SplitN(bind, ':', 3);
    CountJoinLast(fields, ':');
    if |fields| < 3 {
      CountNone(fields[|fields| - 1], ':');
    }
  }

  /** A stored bind "host:container:options" whose paths hold no ':' is
    * re-rooted field by field. */
  lemma CalcPathForStoredBind(rootfs: string, b: Bind)
    requires ':' !in b.hostPath && ':' !in b.containerPath
    ensures CalcPathForBind(rootfs, BindToString(b)) ==
            Ok(b.hostPath + ":" + JoinPath([rootfs, b.containerPath]) + ":" + b.mountOption)
  {
    assert BindToString(b) == b.hostPath + [':'] + b.containerPath + [':'] + b.mountOption;
    SplitN3(b.hostPath, b.containerPath, b.mountOption, ':');
  }

  /** `stringToBind`: re-root the stored bind, then parse it; either
    * failure names the stored text. */
  function StringToBind(containerRoot: string, bindstr: string, spec: Spec, isCreate: bool,
                        hostView: string -> BindParse.HostView): (r: Result<Bind>)
    ensures r.Ok? ==> Count(bindstr, ':') >= 2
    ensures r.Ok? ==> IsAbs(r.value.hostPath) && IsAbs(r.value.containerPath) && r.value.resolvPath == ""
    ensures Count(bindstr, ':') < 2 ==>
              r == Err("Re-Calculate bind(" + bindstr + ") failed: " + "Error: bind lack of \":\"")
  {
    CalcPathForBindFields(containerRoot, bindstr);
    match CalcPathForBind(containerRoot, bindstr)
    case Err(e) => Err("Re-Calculate bind(" + bindstr + ") failed: " + e)
    case Ok(resolv) =>
      match BindParse.ParseBind(resolv, Some(spec), isCreate, hostView(resolv))
      case Err(e) => Err("Parse bind(" + bindstr + ") failed: " + e)
      case Ok(b) => Ok(b)
  }

  /** A parsed stored bind keeps its host path and options, and its
    * container path is the stored one under the root file system. */
  lemma StoredBindRerooted(root: string, b: Bind, spec: Spec, isCreate: bool, hostView: string -> BindParse.HostView)
    requires ':' !in b.hostPath && ':' !in b.containerPath && ':' !in b.mountOption
    requires ':' !in JoinPath([root, b.containerPath])
    ensures var r := StringToBind(root, BindToString(b), spec, isCreate, hostView);
            r.Ok? ==> r.value.hostPath == Clean(b.hostPath) &&
                      r.value.containerPath == Clean(JoinPath([root, b.containerPath])) &&
                      r.value.mountOption == b.mountOption
  {
    CalcPathForStoredBind(root, b);
    var ctr := JoinPath([root, b.containerPath]);
    var resolv := b.hostPath + ":" + ctr + ":" + b.mountOption;
    assert resolv == b.hostPath + [':'] + ctr + [':'] + b.mountOption;
    SplitThree(b.hostPath, ctr, b.mountOption, ':');
    BindParse.ParseBindFields(resolv, Some(spec), isCreate, hostView(resolv), b.hostPath, ctr, b.mountOption);
  }
}

// The worker that runs inside a container's namespaces
// (libdevice/container_work.go): it reads its work type from the
// environment, decodes one request from the pipe, changes the container's
// filesystem and writes exactly one error record back.  The filesystem is
// an abstract map from paths to nodes; what the operating system refuses
// for reasons the map cannot show (permissions, busy mounts, a full disk)
// is given by `Faults`.
module ContainerWork {
  import opened Wrappers
  import opened Strs
  import opened Paths
  import opened DeviceTypes
  import opened Mounter
  import NsExec

  // ---------------------------------------------------------------------
  // The filesystem seen from inside the container

  datatype Node = DirNode | FileNode | DevNode(typ: string, major: int, minor: int) | LinkNode(target: string)

  /** The nodes by path, their owners and permission bits, the mount(2)
    * calls made, the paths unmounted and the values written under
    * /proc/sys. */
  datatype FsState = FsState(
    nodes: map<string, Node>,
    owner: map<string, (int, int)>,
    perm: map<string, int>,
    mounts: seq<MountCall>,
    unmounts: seq<string>,
    sysctl: map<string, string>)

  /** The failures the filesystem map cannot explain, by path (or by mount
    * call), and Docker's mount option parser. */
  datatype Faults = Faults(
    stat: string -> Option<ErrText>,      // a stat failure other than absence
    mkdir: string -> Option<ErrText>,
    create: string -> Option<ErrText>,
    mknod: string -> Option<ErrText>,
    chown: string -> Option<ErrText>,
    chmod: string -> Option<ErrText>,
    remove: string -> Option<ErrText>,
    write: string -> Option<ErrText>,
    unmount: string -> Option<ErrText>,
    mount: MountCall -> Option<ErrText>,
    parse: string -> Parsed)

  /** A state together with the error a step ended with. */
  datatype Outcome = Outcome(st: FsState, err: Option<ErrText>)

  /** "/" or ".": the root and the working directory, which always exist
    * and are their own `Dir`. */
  predicate SelfParent(p: string)
  {
    |p| == 1 && (p[0] == '/' || p[0] == '.')
  }

  predicate Present(nodes: map<string, Node>, p: string)
  {
    SelfParent(p) || p in nodes
  }

  predicate IsDirAt(nodes: map<string, Node>, p: string)
  {
    SelfParent(p) || (p in nodes && nodes[p].DirNode?)
  }

  /** `dir` and its ancestors, walking up with `Dir`, until the first one
    * that exists: the directories a `MkdirAll(dir)` has to create. */
  function Missing(nodes: map<string, Node>, dir: string): (r: seq<string>)
    ensures forall i :: 0 <= i < |r| ==> !Present(nodes, r[i])
    ensures Present(nodes, dir) <==> r == []
    decreases if dir == "." then 0 else |dir| + 1
  {
    if Present(nodes, dir) then []
    else
      DirProgress(dir);
      [dir] + Missing(nodes, Dir(dir))
  }

  /** The first of `dir` and its ancestors that exists. */
  function Top(nodes: map<string, Node>, dir: string): (r: string)
    ensures Present(nodes, r)
    decreases if dir == "." then 0 else |dir| + 1
  {
    if Present(nodes, dir) then dir
    else
      DirProgress(dir);
      Top(nodes, Dir(dir))
  }

  function WithDirs(nodes: map<string, Node>, ds: seq<string>): map<string, Node>
  {
    nodes + map d | d in ds :: DirNode
  }

  // ---------------------------------------------------------------------
  // Error texts

  const NoEntry: ErrText := "no such file or directory"
  const NotDir: ErrText := "not a directory"
  const IsDirErr: ErrText := "is a directory"
  const Exists: ErrText := "file exists"
  const NotEmpty: ErrText := "directory not empty"
  const BadDeviceType: string := " is not a valid device type for device "
  const MknodUnsupported: string := "Current OS kernel do not support mknod in container user namespace for root, err: "
  const TransferDirFailed: string := "doAddTransferBase: create transfer dir in container failed, err: "
  const TransferMountFailed: string := "doAddTransferBase: mount transfer dir in container failed, err:"
  const DestinationFailed: string := "doMount: create mount destination in container failed, err: "
  const ChownFailed: string := "chown changes the numeric uid and gid of the name file, err: "

  /** An error with some context put in front of it. */
  function Wrap(prefix: string, e: ErrText): ErrText
  {
    prefix + e
  }

  /** Go's `*PathError` text: "op path: reason". */
  function PathError(op: string, p: string, reason: ErrText): ErrText
  {
    op + " " + p + ": " + reason
  }

  function StatFailed(p: string, e: ErrText): ErrText
  {
    Wrap("doMount: stat " + p + " in container failed, err: ", e)
  }

  /** `doMount`'s symlink error around Go's `*LinkError`. */
  function SymlinkFailed(src: string, dest: string, reason: ErrText): ErrText
  {
    Wrap("doMount: symlink " + src + " " + dest + " symlink " + src + " " + dest + ": ", reason)
  }

  // ---------------------------------------------------------------------
  // The system calls, one step each

  /** `os.MkdirAll`: an existing directory is success; an existing
    * non-directory at the path or at the first existing ancestor is
    * "not a directory"; otherwise every missing directory is made. */
  function MkdirAll(st: FsState, p: string, f: Faults): (o: Outcome)
    ensures o.err.Some? ==> o.st == st
    ensures o.err.None? ==> IsDirAt(o.st.nodes, p)
    ensures o.err.None? ==> forall q :: q in st.nodes ==> q in o.st.nodes && o.st.nodes[q] == st.nodes[q]
  {
    if IsDirAt(st.nodes, p) then Outcome(st, None)
    else
      var top := Top(st.nodes, p);
      if !IsDirAt(st.nodes, top) then Outcome(st, Some(PathError("mkdir", top, NotDir)))
      else if f.mkdir(p).Some? then Outcome(st, f.mkdir(p))
      else
        var made := WithDirs(st.nodes, Missing(st.nodes, p));
        assert made[p] == DirNode;
        Outcome(st.(nodes := made), None)
  }

  /** `os.Chown` (and `os.Lchown`). */
  function Chown(st: FsState, p: string, uid: int, gid: int, f: Faults): (o: Outcome)
    ensures o.st.nodes == st.nodes && o.st.mounts == st.mounts
    ensures o.err.None? <==> Present(st.nodes, p) && f.chown(p).None?
  {
    if !Present(st.nodes, p) then Outcome(st, Some(PathError("chown", p, NoEntry)))
    else if f.chown(p).Some? then Outcome(st, f.chown(p))
    else Outcome(st.(owner := st.owner[p := (uid, gid)]), None)
  }

  /** Chowning each path in turn, failures only logged. */
  function ChownEach(st: FsState, ps: seq<string>, uid: int, gid: int, f: Faults): (r: FsState)
    ensures r.nodes == st.nodes && r.mounts == st.mounts
    decreases |ps|
  {
    if |ps| == 0 then st
    else Chown(ChownEach(st, ps[..|ps| - 1], uid, gid, f), ps[|ps| - 1], uid, gid, f).st
  }

  /** `os.Chmod`. */
  function Chmod(st: FsState, p: string, mode: int, f: Faults): (o: Outcome)
    ensures o.st.nodes == st.nodes && o.st.mounts == st.mounts
    ensures o.err.None? <==> Present(st.nodes, p) && f.chmod(p).None?
  {
    if !Present(st.nodes, p) then Outcome(st, Some(PathError("chmod", p, NoEntry)))
    else if f.chmod(p).Some? then Outcome(st, f.chmod(p))
    else Outcome(st.(perm := st.perm[p := mode]), None)
  }

  /** Some node lies directly inside `p`. */
  predicate HasChildren(nodes: map<string, Node>, p: string)
  {
    exists q :: q in nodes && Dir(q) == p
  }

  /** `os.Remove`: a directory that still holds something is "directory
    * not empty". */
  function Remove(st: FsState, p: string, f: Faults): (o: Outcome)
    ensures o.err.None? <==> p in st.nodes && !HasChildren(st.nodes, p) && f.remove(p).None?
    ensures o.err.None? ==> o.st.nodes == st.nodes - {p}
    ensures o.err.Some? ==> o.st == st
  {
    if p !in st.nodes then Outcome(st, Some(PathError("remove", p, NoEntry)))
    else if HasChildren(st.nodes, p) then Outcome(st, Some(PathError("remove", p, NotEmpty)))
    else if f.remove(p).Some? then Outcome(st, f.remove(p))
    else Outcome(st.(nodes := st.nodes - {p}, owner := st.owner - {p}, perm := st.perm - {p}), None)
  }

  /** `os.OpenFile(p, O_RDWR|O_CREATE, 0600)` followed by a close: an
    * existing non-directory is opened as it is. */
  function CreateFile(st: FsState, p: string, f: Faults): (o: Outcome)
    ensures o.err.Some? ==> o.st == st
    ensures o.err.None? ==> p in o.st.nodes && !o.st.nodes[p].DirNode?
  {
    if p in st.nodes && !st.nodes[p].DirNode? then Outcome(st, None)
    else if IsDirAt(st.nodes, p) then Outcome(st, Some(PathError("open", p, IsDirErr)))
    else if !Present(st.nodes, Dir(p)) then Outcome(st, Some(PathError("open", p, NoEntry)))
    else if !IsDirAt(st.nodes, Dir(p)) then Outcome(st, Some(PathError("open", p, NotDir)))
    else if f.create(p).Some? then Outcome(st, f.create(p))
    else Outcome(st.(nodes := st.nodes[p := FileNode]), None)
  }

  /** `MknodDevice`: only "c" and "b" devices; the node gets exactly the
    * requested mode (the umask is 0) and then its owner, whose failure is
    * an error too. */
  function MknodDevice(st: FsState, p: string, d: Device, f: Faults): (o: Outcome)
    ensures o.err.None? ==> o.st.nodes == st.nodes[p := DevNode(d.typ, d.major, d.minor)]
    ensures o.err.None? ==> o.st.owner == st.owner[p := (d.uid, d.gid)] && o.st.perm == st.perm[p := d.fileMode]
    ensures Present(st.nodes, p) ==> o.err.Some?
  {
    if d.typ != "c" && d.typ != "b" then Outcome(st, Some(Wrap(d.typ, BadDeviceType + d.path)))
    else if Present(st.nodes, p) then Outcome(st, Some(Exists))
    else if !Present(st.nodes, Dir(p)) then Outcome(st, Some(NoEntry))
    else if !IsDirAt(st.nodes, Dir(p)) then Outcome(st, Some(NotDir))
    else if f.mknod(p).Some? then Outcome(st, f.mknod(p))
    else
      var made := st.(nodes := st.nodes[p := DevNode(d.typ, d.major, d.minor)], perm := st.perm[p := d.fileMode]);
      Chown(made, p, d.uid, d.gid, f)
  }

  /** `mount.Mount`, with the calls it makes recorded. */
  function MountVia(st: FsState, source: string, target: string, mType: string, options: string, f: Faults): (o: Outcome)
    ensures o.st.nodes == st.nodes
  {
    var (calls, err) := Mounter.Mount(source, target, mType, options, f.parse, f.mount);
    Outcome(st.(mounts := st.mounts + calls), err)
  }

  /** `mount.Unmount` with MNT_DETACH. */
  function Unmount(st: FsState, p: string, f: Faults): (o: Outcome)
  {
    if f.unmount(p).Some? then Outcome(st, f.unmount(p))
    else Outcome(st.(unmounts := st.unmounts + [p]), None)
  }

  // ---------------------------------------------------------------------
  // The requests and their handlers

  /** What the pipe holds, decoded as the request the work type asks for,
    * or the decoding error. */
  datatype Payload<T> = Payload(value: T) | Garbled(err: ErrText)

  datatype AddDeviceMsg = AddDeviceMsg(force: bool, device: Device)
  datatype SysctlMsg = SysctlMsg(key: string, value: string)
  datatype MountMsg = MountMsg(source: string, destination: string, typ: string, options: string, uid: int, gid: int)

  /** The node at the device's path is the device itself. */
  predicate SameDeviceAt(nodes: map<string, Node>, d: Device)
  {
    d.path in nodes && nodes[d.path] == DevNode(d.typ, d.major, d.minor)
  }

  /** `doAddDevice`. */
  function AddDevice(st: FsState, msg: AddDeviceMsg, f: Faults): (o: Outcome)
  {
    var d := msg.device;
    if SameDeviceAt(st.nodes, d) then
      Outcome(Chown(Chmod(st, d.path, d.fileMode, f).st, d.path, d.uid, d.gid, f).st, None)
    else
      var st1 := if msg.force then Remove(st, d.path, f).st else st;
      var need := Missing(st1.nodes, Dir(d.path));
      var mk := MkdirAll(st1, Dir(d.path), f);
      if mk.err.Some? then mk
      else
        var mn := MknodDevice(ChownEach(mk.st, need, d.uid, d.gid, f), d.path, d, f);
        if mn.err.Some? then Outcome(mn.st, Some(Wrap(MknodUnsupported, mn.err.value))) else mn
  }

  /** `doRemoveDevice`: a missing path is fine, a path that is not a device
    * is refused. */
  function RemoveDevice(st: FsState, d: Device, f: Faults): (o: Outcome)
  {
    if !Present(st.nodes, d.path) then Outcome(st, None)
    else if d.path !in st.nodes || !st.nodes[d.path].DevNode? then Outcome(st, Some("not a device"))
    else Remove(st, d.path, f)
  }

  /** The `%+v` text of a bind in error messages. */
  function BindText(b: Bind): string
  {
    "{HostPath:" + b.hostPath + " IsDir:" + (if b.isDir then "true" else "false") +
    " ResolvPath:" + b.resolvPath + " ContainerPath:" + b.containerPath +
    " MountOption:" + b.mountOption + " UID:" + IntToString(b.uid) + " GID:" + IntToString(b.gid) + "}"
  }

  /** The mount point of a bind: a directory, or an empty file in a
    * directory. */
  function MakeBindTarget(st: FsState, b: Bind, f: Faults): (o: Outcome)
    ensures o.err.None? ==> Present(o.st.nodes, b.containerPath)
  {
    if b.isDir then MkdirAll(st, b.containerPath, f)
    else
      var mk := MkdirAll(st, Dir(b.containerPath), f);
      if mk.err.Some? then mk
      else
        var cf := CreateFile(mk.st, b.containerPath, f);
        if cf.err.Some? then Outcome(cf.st, Some(Wrap("fail to create transfer path,err: ", cf.err.value))) else cf
  }

  /** `doAddBind`. */
  function AddBind(st: FsState, b: Bind, f: Faults): (o: Outcome)
  {
    var need := Missing(st.nodes, Dir(b.containerPath));
    var made := MakeBindTarget(st, b, f);
    if made.err.Some? then made
    else
      var owned := ChownEach(Chown(made.st, b.containerPath, b.uid, b.gid, f).st, need, b.uid, b.gid, f);
      var mv := MountVia(owned, b.resolvPath, b.containerPath, "none", b.mountOption, f);
      if mv.err.Some? then Outcome(mv.st, Some(Wrap("fail to mount via transfer path: " + BindText(b) + ", err: ", mv.err.value)))
      else mv
  }

  /** `doRemoveBind`. */
  function RemoveBind(st: FsState, b: Bind, f: Faults): (o: Outcome)
  {
    Unmount(st, b.containerPath, f)
  }

  const TransferBaseOptions: string := "ro,bind,rslave"

  /** `doAddTransferBase`. */
  function AddTransferBase(st: FsState, b: Bind, f: Faults): (o: Outcome)
  {
    var mk := MkdirAll(st, b.containerPath, f);
    if mk.err.Some? then Outcome(mk.st, Some(Wrap(TransferDirFailed, mk.err.value)))
    else
      var mv := MountVia(mk.st, b.hostPath, b.containerPath, "none", TransferBaseOptions, f);
      if mv.err.Some? then Outcome(mv.st, Some(TransferMountError(mv.err.value, b)))
      else mv
  }

  /** The error of a refused transfer-base mount names the bind. */
  function TransferMountError(e: ErrText, b: Bind): ErrText
  {
    Wrap(TransferMountFailed, e + ", " + BindText(b))
  }

  const ProcSys: string := "/proc/sys"

  /** `writeSystemProperty`'s target: the key's dots become slashes under
    * /proc/sys. */
  function SysctlPath(key: string): string
  {
    JoinPath([ProcSys, ReplaceAll(key, ".", "/")])
  }

  /** `doUpdateSysctl`. */
  function UpdateSysctl(st: FsState, m: SysctlMsg, f: Faults): (o: Outcome)
  {
    var p := SysctlPath(m.key);
    if f.write(p).Some? then Outcome(st, f.write(p))
    else Outcome(st.(sysctl := st.sysctl[p := m.value]), None)
  }

  /** `doMount`: move, bind, link, or a mount of any other type. */
  function DoMount(st: FsState, m: MountMsg, f: Faults): (o: Outcome)
  {
    var src, dest := m.source, m.destination;
    if m.typ == "move" then
      if f.stat(dest).Some? then Outcome(st, Some(StatFailed(dest, f.stat(dest).value)))
      else
        var mk := MkdirAll(st, dest, f);
        if mk.err.Some? then Outcome(st, Some(Wrap(DestinationFailed, mk.err.value)))
        else
          var call := MountCall(src, dest, "", {Move}, "");
          Outcome(mk.st.(mounts := mk.st.mounts + [call]), f.mount(call))
    else if m.typ == "bind" then
      if f.stat(dest).Some? then Outcome(st, Some(StatFailed(dest, f.stat(dest).value)))
      else if f.stat(src).Some? then Outcome(st, Some(StatFailed(src, f.stat(src).value)))
      else if !Present(st.nodes, src) then Outcome(st, Some(StatFailed(src, PathError("stat", src, NoEntry))))
      else
        var ch := Chown(st, src, m.uid, m.gid, f);
        if ch.err.Some? then Outcome(st, Some(Wrap(ChownFailed, ch.err.value)))
        else if IsDirAt(st.nodes, src) then
          var mk := MkdirAll(ch.st, dest, f);
          if mk.err.Some? then Outcome(mk.st, Some(Wrap(DestinationFailed, mk.err.value)))
          else MountVia(mk.st, src, dest, "none", m.options, f)
        else
          var cf := CreateFile(ch.st, dest, f);
          if cf.err.Some? then Outcome(cf.st, Some(Wrap("fail to create " + dest + ", err: ", cf.err.value)))
          else MountVia(cf.st, src, dest, "none", m.options, f)
    else if m.typ == "link" then
      if Present(st.nodes, dest) then
        Outcome(st, Some(SymlinkFailed(src, dest, Exists)))
      else if Present(st.nodes, Dir(dest)) && !IsDirAt(st.nodes, Dir(dest)) then
        Outcome(st, Some(SymlinkFailed(src, dest, NotDir)))
      else
        // a missing parent makes the symlink fail with "does not exist",
        // which is ignored
        var linked := if Present(st.nodes, Dir(dest)) then st.(nodes := st.nodes[dest := LinkNode(src)]) else st;
        var owned := Chown(linked, dest, m.uid, m.gid, f).st;
        Outcome(Remove(owned, ReplaceAll(dest, "/dev", "/.dev"), f).st, None)
    else MountVia(st, src, dest, m.typ, m.options, f)
  }

  // ---------------------------------------------------------------------
  // The worker

  /** The pipe decoded as each kind of request. */
  datatype Requests = Requests(
    addDevice: Payload<AddDeviceMsg>,
    device: Payload<Device>,
    bind: Payload<Bind>,
    sysctl: Payload<SysctlMsg>,
    mnt: Payload<MountMsg>)

  /** The handler the work type selects, after decoding its request. */
  function Handle(st: FsState, w: NsExec.Work, req: Requests, f: Faults): (o: Outcome)
  {
    match w
    case AddDeviceWork => (match req.addDevice case Garbled(e) => Outcome(st, Some(e)) case Payload(m) => AddDevice(st, m, f))
    case RemoveDeviceWork => (match req.device case Garbled(e) => Outcome(st, Some(e)) case Payload(d) => RemoveDevice(st, d, f))
    case AddBindWork => (match req.bind case Garbled(e) => Outcome(st, Some(e)) case Payload(b) => AddBind(st, b, f))
    case RemoveBindWork => (match req.bind case Garbled(e) => Outcome(st, Some(e)) case Payload(b) => RemoveBind(st, b, f))
    case AddTransferBaseWork => (match req.bind case Garbled(e) => Outcome(st, Some(e)) case Payload(b) => AddTransferBase(st, b, f))
    case UpdateSysctlWork => (match req.sysctl case Garbled(e) => Outcome(st, Some(e)) case Payload(m) => UpdateSysctl(st, m, f))
    case MountWork => (match req.mnt case Garbled(e) => Outcome(st, Some(e)) case Payload(m) => DoMount(st, m, f))
  }

  /** The record written back: the error text, or "" for success. */
  function RecordOf(err: Option<ErrText>): string
  {
    if err.Some? then err.value else ""
  }

  /** A run of the worker: the state it leaves and the record it writes, if
    * any (none when the pipe descriptor cannot be read). */
  datatype Run = Run(st: FsState, record: Option<string>)

  /** `WorkInContainer`, given the two environment values. */
  function Work(st: FsState, pipeEnv: string, typeEnv: string, req: Requests, f: Faults): (r: Run)
  {
    if Atoi(pipeEnv).None? then Run(st, None)
    else match Atoi(typeEnv)
      case None => Run(st, Some("unable to convert " + NsExec.WorkType + "=" + typeEnv + " to int"))
      case Some(c) =>
        match NsExec.WorkOfCode(c)
        case None => Run(st, Some("unkown worktype=(" + IntToString(c) + ")"))
        case Some(w) =>
          var o := Handle(st, w, req, f);
          Run(o.st, Some(RecordOf(o.err)))
  }

  /** The container's filesystem, changed in place by the worker. */
  class Rootfs {
    var nodes: map<string, Node>
    var owner: map<string, (int, int)>
    var perm: map<string, int>
    var mounts: seq<MountCall>
    var unmounts: seq<string>
    var sysctl: map<string, string>

    function State(): FsState
      reads this
    {
      FsState(nodes, owner, perm, mounts, unmounts, sysctl)
    }

    constructor (s: FsState)
      ensures State() == s
    {
      nodes, owner, perm := s.nodes, s.owner, s.perm;
      mounts, unmounts, sysctl := s.mounts, s.unmounts, s.sysctl;
    }

    /** The effect of one system call. */
    method Apply(s: FsState)
      modifies this
      ensures State() == s
    {
      nodes, owner, perm := s.nodes, s.owner, s.perm;
      mounts, unmounts, sysctl := s.mounts, s.unmounts, s.sysctl;
    }

    /** The walk of `doAddDevice` and `doAddBind`: the ancestors of `p`
      * that do not exist, nearest first. */
    method MissingAncestors(p: string) returns (need: seq<string>)
      ensures need == Missing(nodes, Dir(p))
    {
      need := [];
      var dir := Dir(p);
      while !Present(nodes, dir)
        invariant need + Missing(nodes, dir) == Missing(nodes, Dir(p))
        decreases if dir == "." then 0 else |dir| + 1
      {
        DirProgress(dir);
        assert Missing(nodes, dir) == [dir] + Missing(nodes, Dir(dir));
        need := need + [dir];
        dir := Dir(dir);
      }
    }

    /** Giving each path the owner, failures only logged. */
    method ChownAll(ps: seq<string>, uid: int, gid: int, f: Faults)
      modifies this
      ensures State() == ChownEach(old(State()), ps, uid, gid, f)
    {
      ghost var s0 := State();
      for i := 0 to |ps|
        invariant State() == ChownEach(s0, ps[..i], uid, gid, f)
      {
        assert ps[..i + 1][..i] == ps[..i];
        Apply(Chown(State(), ps[i], uid, gid, f).st);
      }
      assert ps[..|ps|] == ps;
    }

    /** `doAddDevice`, step by step. */
    method DoAddDevice(msg: AddDeviceMsg, f: Faults) returns (err: Option<ErrText>)
      modifies this
      ensures Outcome(State(), err) == AddDevice(old(State()), msg, f)
    {
      var d := msg.device;
      if SameDeviceAt(nodes, d) {
        Apply(Chmod(State(), d.path, d.fileMode, f).st);
        Apply(Chown(State(), d.path, d.uid, d.gid, f).st);
        return None;
      }
      if msg.force {
        Apply(Remove(State(), d.path, f).st);
      }
      var need := MissingAncestors(d.path);
      var mk := MkdirAll(State(), Dir(d.path), f);
      if mk.err.Some? {
        return mk.err;
      }
      Apply(mk.st);
      ChownAll(need, d.uid, d.gid, f);
      var mn := MknodDevice(State(), d.path, d, f);
      Apply(mn.st);
      if mn.err.Some? {
        return Some(Wrap(MknodUnsupported, mn.err.value));
      }
      return None;
    }

    /** `doAddBind`, step by step. */
    method DoAddBind(b: Bind, f: Faults) returns (err: Option<ErrText>)
      modifies this
      ensures Outcome(State(), err) == AddBind(old(State()), b, f)
    {
      var need := MissingAncestors(b.containerPath);
      var made := MakeBindTarget(State(), b, f);
      Apply(made.st);
      if made.err.Some? {
        return made.err;
      }
      Apply(Chown(State(), b.containerPath, b.uid, b.gid, f).st);
      ChownAll(need, b.uid, b.gid, f);
      var mv := MountVia(State(), b.resolvPath, b.containerPath, "none", b.mountOption, f);
      Apply(mv.st);
      if mv.err.Some? {
        return Some(Wrap("fail to mount via transfer path: " + BindText(b) + ", err: ", mv.err.value));
      }
      return None;
    }

    /** `WorkInContainer`: `record` is what is written to the pipe. */
    method WorkInContainer(pipeEnv: string, typeEnv: string, req: Requests, f: Faults) returns (record: Option<string>)
      modifies this
      ensures Run(State(), record) == Work(old(State()), pipeEnv, typeEnv, req, f)
    {
      if Atoi(pipeEnv).None? {
        return None;
      }
      var code := Atoi(typeEnv);
      if code.None? {
        return Some("unable to convert " + NsExec.WorkType + "=" + typeEnv + " to int");
      }
      var w := NsExec.WorkOfCode(code.value);
      if w.None? {
        return Some("unkown worktype=(" + IntToString(code.value) + ")");
      }
      var err: Option<ErrText>;
      if w.value == NsExec.AddDeviceWork && req.addDevice.Payload? {
        err := DoAddDevice(req.addDevice.value, f);
      } else if w.value == NsExec.AddBindWork && req.bind.Payload? {
        err := DoAddBind(req.bind.value, f);
      } else {
        var o := Handle(State(), w.value, req, f);
        Apply(o.st);
        err := o.err;
      }
      return Some(RecordOf(err));
    }
  }

  // ---------------------------------------------------------------------
  // The tree stays a tree

  /** Every node sits in a directory that exists. */
  predicate WellFormed(nodes: map<string, Node>)
  {
    forall q :: q in nodes ==> !SelfParent(q) && IsDirAt(nodes, Dir(q))
  }

  /** The walk goes from each missing directory to its parent... */
  lemma {:induction false} MissingLinks(nodes: map<string, Node>, dir: string)
    ensures var m := Missing(nodes, dir);
            forall i :: 0 <= i < |m| - 1 ==> Dir(m[i]) == m[i + 1]
    decreases if dir == "." then 0 else |dir| + 1
  {
    if !Present(nodes, dir) {
      DirProgress(dir);
      var rest := Missing(nodes, Dir(dir));
      MissingLinks(nodes, Dir(dir));
      MissingEnds(nodes, Dir(dir));
      var m := [dir] + rest;
      assert Missing(nodes, dir) == m;
      forall i | 0 <= i < |m| - 1
        ensures Dir(m[i]) == m[i + 1]
      {
        if i > 0 {
          assert m[i] == rest[i - 1] && m[i + 1] == rest[i];
        }
      }
    }
  }

  /** ...starting at `dir` and ending just below the first one that
    * exists. */
  lemma {:induction false} MissingEnds(nodes: map<string, Node>, dir: string)
    ensures var m := Missing(nodes, dir);
            |m| > 0 ==> m[0] == dir && Dir(m[|m| - 1]) == Top(nodes, dir)
    ensures Missing(nodes, dir) == [] ==> Top(nodes, dir) == dir
    decreases if dir == "." then 0 else |dir| + 1
  {
    if !Present(nodes, dir) {
      DirProgress(dir);
      var up := Dir(dir);
      var rest := Missing(nodes, up);
      var m := [dir] + rest;
      assert Missing(nodes, dir) == m;
      assert Top(nodes, dir) == Top(nodes, up);
      MissingEnds(nodes, up);
      if rest == [] {
        assert m[|m| - 1] == dir;
      } else {
        assert m[|m| - 1] == rest[|rest| - 1];
      }
    }
  }

  /** Adding a node in an existing directory keeps the tree. */
  lemma {:induction false} AddLeaf(nodes: map<string, Node>, p: string, n: Node)
    requires WellFormed(nodes) && !Present(nodes, p) && IsDirAt(nodes, Dir(p))
    ensures WellFormed(nodes[p := n])
  {
    forall q | q in nodes[p := n]
      ensures !SelfParent(q) && IsDirAt(nodes[p := n], Dir(q))
    {
      if q != p {
        assert IsDirAt(nodes, Dir(q));
      }
    }
  }

  /** `MkdirAll` keeps the tree: each new directory hangs under the next
    * new one, the last under the first existing directory. */
  lemma {:induction false} MkdirAllKeepsTree(st: FsState, p: string, f: Faults)
    requires WellFormed(st.nodes)
    ensures WellFormed(MkdirAll(st, p, f).st.nodes)
  {
    var o := MkdirAll(st, p, f);
    if o.st != st {
      assert IsDirAt(st.nodes, Top(st.nodes, p));
      assert o.st.nodes == WithDirs(st.nodes, Missing(st.nodes, p));
      MissingKeepsTree(st.nodes, p);
    }
  }

  /** Making every missing directory on the way to `p` keeps the tree. */
  lemma {:induction false} MissingKeepsTree(nodes: map<string, Node>, p: string)
    requires WellFormed(nodes) && IsDirAt(nodes, Top(nodes, p))
    ensures WellFormed(WithDirs(nodes, Missing(nodes, p)))
  {
    MissingLinks(nodes, p);
    MissingEnds(nodes, p);
    ChainKeepsTree(nodes, Missing(nodes, p), Top(nodes, p));
  }

  /** Adding a chain of new directories, each under the next and the last
    * under an existing directory, keeps the tree. */
  lemma ChainKeepsTree(nodes: map<string, Node>, m: seq<string>, top: string)
    requires WellFormed(nodes) && IsDirAt(nodes, top)
    requires forall i :: 0 <= i < |m| ==> !Present(nodes, m[i])
    requires forall i :: 0 <= i < |m| - 1 ==> Dir(m[i]) == m[i + 1]
    requires |m| > 0 ==> Dir(m[|m| - 1]) == top
    ensures WellFormed(WithDirs(nodes, m))
  {
    forall q | q in WithDirs(nodes, m)
      ensures !SelfParent(q) && IsDirAt(WithDirs(nodes, m), Dir(q))
    {
      ChainNodeKeepsTree(nodes, m, top, q);
    }
  }

  /** One node of the grown tree: not "/" or ".", and its parent is a
    * directory. */
  lemma ChainNodeKeepsTree(nodes: map<string, Node>, m: seq<string>, top: string, q: string)
    requires WellFormed(nodes) && IsDirAt(nodes, top)
    requires forall i :: 0 <= i < |m| ==> !Present(nodes, m[i])
    requires forall i :: 0 <= i < |m| - 1 ==> Dir(m[i]) == m[i + 1]
    requires |m| > 0 ==> Dir(m[|m| - 1]) == top
    requires q in WithDirs(nodes, m)
    ensures !SelfParent(q) && IsDirAt(WithDirs(nodes, m), Dir(q))
  {
    var up := Dir(q);
    if q in m {
      var i :| 0 <= i < |m| && m[i] == q;
      assert !Present(nodes, m[i]);
      if i < |m| - 1 {
        assert up == m[i + 1];
        WithDirsLookup(nodes, m, up);
      } else {
        assert up == top;
        WithDirsLookup(nodes, m, up);
      }
    } else {
      assert IsDirAt(nodes, up);
      WithDirsLookup(nodes, m, up);
    }
  }

  /** A directory of the chain is a directory node of the grown tree; any
    * other node is as it was. */
  lemma WithDirsLookup(nodes: map<string, Node>, m: seq<string>, p: string)
    ensures p in m ==> p in WithDirs(nodes, m) && WithDirs(nodes, m)[p] == DirNode
    ensures p !in m ==> (p in WithDirs(nodes, m) <==> p in nodes)
    ensures p !in m && p in nodes ==> WithDirs(nodes, m)[p] == nodes[p]
  {
  }

  lemma {:induction false} RemoveKeepsTree(st: FsState, p: string, f: Faults)
    requires WellFormed(st.nodes)
    ensures WellFormed(Remove(st, p, f).st.nodes)
  {
    var o := Remove(st, p, f);
    if o.err.None? {
      forall q | q in o.st.nodes
        ensures !SelfParent(q) && IsDirAt(o.st.nodes, Dir(q))
      {
        assert IsDirAt(st.nodes, Dir(q));
        assert Dir(q) != p;
      }
    }
  }

  lemma {:induction false} CreateFileKeepsTree(st: FsState, p: string, f: Faults)
    requires WellFormed(st.nodes)
    ensures WellFormed(CreateFile(st, p, f).st.nodes)
  {
    var o := CreateFile(st, p, f);
    if o.st.nodes != st.nodes {
      AddLeaf(st.nodes, p, FileNode);
    }
  }

  lemma {:induction false} MknodKeepsTree(st: FsState, p: string, d: Device, f: Faults)
    requires WellFormed(st.nodes)
    ensures WellFormed(MknodDevice(st, p, d, f).st.nodes)
  {
    var o := MknodDevice(st, p, d, f);
    if o.st.nodes != st.nodes {
      AddLeaf(st.nodes, p, DevNode(d.typ, d.major, d.minor));
    }
  }

  lemma {:induction false} AddDeviceKeepsTree(st: FsState, msg: AddDeviceMsg, f: Faults)
    requires WellFormed(st.nodes)
    ensures WellFormed(AddDevice(st, msg, f).st.nodes)
  {
    var d := msg.device;
    var r := AddDevice(st, msg, f).st.nodes;
    if SameDeviceAt(st.nodes, d) {
      assert r == st.nodes;
    } else {
      var st1 := if msg.force then Remove(st, d.path, f).st else st;
      RemoveKeepsTree(st, d.path, f);
      MkdirAllKeepsTree(st1, Dir(d.path), f);
      var mk := MkdirAll(st1, Dir(d.path), f);
      if mk.err.Some? {
        assert r == st1.nodes;
      } else {
        var st2 := ChownEach(mk.st, Missing(st1.nodes, Dir(d.path)), d.uid, d.gid, f);
        MknodKeepsTree(st2, d.path, d, f);
        assert r == MknodDevice(st2, d.path, d, f).st.nodes;
      }
    }
  }

  lemma {:induction false} MakeBindTargetKeepsTree(st: FsState, b: Bind, f: Faults)
    requires WellFormed(st.nodes)
    ensures WellFormed(MakeBindTarget(st, b, f).st.nodes)
  {
    MkdirAllKeepsTree(st, b.containerPath, f);
    MkdirAllKeepsTree(st, Dir(b.containerPath), f);
    var mk := MkdirAll(st, Dir(b.containerPath), f);
    CreateFileKeepsTree(mk.st, b.containerPath, f);
  }

  lemma {:induction false} AddBindKeepsTree(st: FsState, b: Bind, f: Faults)
    requires WellFormed(st.nodes)
    ensures WellFormed(AddBind(st, b, f).st.nodes)
  {
    MakeBindTargetKeepsTree(st, b, f);
    assert AddBind(st, b, f).st.nodes == MakeBindTarget(st, b, f).st.nodes;
  }

  lemma {:induction false} DoMountKeepsTree(st: FsState, m: MountMsg, f: Faults)
    requires WellFormed(st.nodes)
    ensures WellFormed(DoMount(st, m, f).st.nodes)
  {
    if m.typ == "move" {
      MoveKeepsTree(st, m, f);
    } else if m.typ == "bind" {
      BindMountKeepsTree(st, m, f);
    } else if m.typ == "link" {
      LinkKeepsTree(st, m, f);
    } else {
      assert DoMount(st, m, f).st.nodes == st.nodes;
    }
  }

  lemma {:induction false} MoveKeepsTree(st: FsState, m: MountMsg, f: Faults)
    requires WellFormed(st.nodes) && m.typ == "move"
    ensures WellFormed(DoMount(st, m, f).st.nodes)
  {
    var mk := MkdirAll(st, m.destination, f);
    MkdirAllKeepsTree(st, m.destination, f);
    assert DoMount(st, m, f).st.nodes == st.nodes || DoMount(st, m, f).st.nodes == mk.st.nodes;
  }

  lemma {:induction false} BindMountKeepsTree(st: FsState, m: MountMsg, f: Faults)
    requires WellFormed(st.nodes) && m.typ == "bind"
    ensures WellFormed(DoMount(st, m, f).st.nodes)
  {
    var src, dest := m.source, m.destination;
    var r := DoMount(st, m, f).st.nodes;
    var ch := Chown(st, src, m.uid, m.gid, f);
    if f.stat(dest).Some? || f.stat(src).Some? || !Present(st.nodes, src) || ch.err.Some? {
      assert r == st.nodes;
    } else if IsDirAt(st.nodes, src) {
      MkdirAllKeepsTree(ch.st, dest, f);
      assert r == MkdirAll(ch.st, dest, f).st.nodes;
    } else {
      CreateFileKeepsTree(ch.st, dest, f);
      assert r == CreateFile(ch.st, dest, f).st.nodes;
    }
  }

  lemma {:induction false} LinkKeepsTree(st: FsState, m: MountMsg, f: Faults)
    requires WellFormed(st.nodes) && m.typ == "link"
    ensures WellFormed(DoMount(st, m, f).st.nodes)
  {
    var src, dest := m.source, m.destination;
    var r := DoMount(st, m, f).st.nodes;
    if !Present(st.nodes, dest) && !(Present(st.nodes, Dir(dest)) && !IsDirAt(st.nodes, Dir(dest))) {
      var linked := if Present(st.nodes, Dir(dest)) then st.(nodes := st.nodes[dest := LinkNode(src)]) else st;
      if Present(st.nodes, Dir(dest)) {
        AddLeaf(st.nodes, dest, LinkNode(src));
      }
      var owned := Chown(linked, dest, m.uid, m.gid, f).st;
      var shadow := ReplaceAll(dest, "/dev", "/.dev");
      RemoveKeepsTree(owned, shadow, f);
      assert r == Remove(owned, shadow, f).st.nodes;
    } else {
      assert r == st.nodes;
    }
  }

  /** Whatever the worker is asked to do, and whatever fails, every node of
    * the container's filesystem still sits in an existing directory. */
  lemma {:induction false} WorkKeepsTree(st: FsState, pipeEnv: string, typeEnv: string, req: Requests, f: Faults)
    requires WellFormed(st.nodes)
    ensures WellFormed(Work(st, pipeEnv, typeEnv, req, f).st.nodes)
  {
    var r := Work(st, pipeEnv, typeEnv, req, f).st.nodes;
    if Atoi(pipeEnv).Some? && Atoi(typeEnv).Some? && NsExec.WorkOfCode(Atoi(typeEnv).value).Some? {
      var w := NsExec.WorkOfCode(Atoi(typeEnv).value).value;
      HandleKeepsTree(st, w, req, f);
      assert r == Handle(st, w, req, f).st.nodes;
    } else {
      assert r == st.nodes;
    }
  }

  lemma {:induction false} HandleKeepsTree(st: FsState, w: NsExec.Work, req: Requests, f: Faults)
    requires WellFormed(st.nodes)
    ensures WellFormed(Handle(st, w, req, f).st.nodes)
  {
    match w
    case AddDeviceWork => HandleAddDeviceKeepsTree(st, req, f);
    case RemoveDeviceWork => HandleRemoveDeviceKeepsTree(st, req, f);
    case AddBindWork => HandleAddBindKeepsTree(st, req, f);
    case RemoveBindWork => HandleUnchangedNodes(st, w, req, f);
    case AddTransferBaseWork => HandleAddTransferBaseKeepsTree(st, req, f);
    case UpdateSysctlWork => HandleUnchangedNodes(st, w, req, f);
    case MountWork => HandleMountKeepsTree(st, req, f);
  }

  /** Unmounting and writing a sysctl value change no node. */
  lemma {:induction false} HandleUnchangedNodes(st: FsState, w: NsExec.Work, req: Requests, f: Faults)
    requires w == NsExec.RemoveBindWork || w == NsExec.UpdateSysctlWork
    ensures Handle(st, w, req, f).st.nodes == st.nodes
  {
    if w == NsExec.UpdateSysctlWork && req.sysctl.Payload? {
      assert Handle(st, w, req, f) == UpdateSysctl(st, req.sysctl.value, f);
    }
  }

  lemma {:induction false} HandleAddDeviceKeepsTree(st: FsState, req: Requests, f: Faults)
    requires WellFormed(st.nodes)
    ensures WellFormed(Handle(st, NsExec.AddDeviceWork, req, f).st.nodes)
  {
    if req.addDevice.Payload? {
      AddDeviceKeepsTree(st, req.addDevice.value, f);
      assert Handle(st, NsExec.AddDeviceWork, req, f) == AddDevice(st, req.addDevice.value, f);
    }
  }

  lemma {:induction false} HandleRemoveDeviceKeepsTree(st: FsState, req: Requests, f: Faults)
    requires WellFormed(st.nodes)
    ensures WellFormed(Handle(st, NsExec.RemoveDeviceWork, req, f).st.nodes)
  {
    if req.device.Payload? {
      RemoveKeepsTree(st, req.device.value.path, f);
        assert RemoveDevice(st, req.device.value, f).st.nodes == st.nodes || RemoveDevice(st, req.device.value, f).st.nodes == Remove(st, req.device.value.path, f).st.nodes;
      assert Handle(st, NsExec.RemoveDeviceWork, req, f) == RemoveDevice(st, req.device.value, f);
    }
  }

  lemma {:induction false} HandleAddBindKeepsTree(st: FsState, req: Requests, f: Faults)
    requires WellFormed(st.nodes)
    ensures WellFormed(Handle(st, NsExec.AddBindWork, req, f).st.nodes)
  {
    if req.bind.Payload? {
      AddBindKeepsTree(st, req.bind.value, f);
      assert Handle(st, NsExec.AddBindWork, req, f) == AddBind(st, req.bind.value, f);
    }
  }

  lemma {:induction false} HandleAddTransferBaseKeepsTree(st: FsState, req: Requests, f: Faults)
    requires WellFormed(st.nodes)
    ensures WellFormed(Handle(st, NsExec.AddTransferBaseWork, req, f).st.nodes)
  {
    if req.bind.Payload? {
      AddTransferBaseKeepsTree(st, req.bind.value, f);
      assert Handle(st, NsExec.AddTransferBaseWork, req, f) == AddTransferBase(st, req.bind.value, f);
    }
  }

  lemma {:induction false} HandleMountKeepsTree(st: FsState, req: Requests, f: Faults)
    requires WellFormed(st.nodes)
    ensures WellFormed(Handle(st, NsExec.MountWork, req, f).st.nodes)
  {
    if req.mnt.Payload? {
      DoMountKeepsTree(st, req.mnt.value, f);
      assert Handle(st, NsExec.MountWork, req, f) == DoMount(st, req.mnt.value, f);
    }
  }

  lemma {:induction false} AddTransferBaseKeepsTree(st: FsState, b: Bind, f: Faults)
    requires WellFormed(st.nodes)
    ensures WellFormed(AddTransferBase(st, b, f).st.nodes)
  {
    MkdirAllKeepsTree(st, b.containerPath, f);
    assert AddTransferBase(st, b, f).st.nodes == MkdirAll(st, b.containerPath, f).st.nodes;
  }

  // ---------------------------------------------------------------------
  // Devices

  /** The device is already there: only its mode and owner are set, and
    * that succeeds even when they cannot be. */
  lemma {:induction false} AddExistingDevice(st: FsState, msg: AddDeviceMsg, f: Faults)
    requires SameDeviceAt(st.nodes, msg.device)
    ensures AddDevice(st, msg, f).err.None?
    ensures AddDevice(st, msg, f).st.nodes == st.nodes
    ensures AddDevice(st, msg, f).st.mounts == st.mounts
  {
  }

  /** A new device node has the requested numbers, mode and owner, sits in
    * an existing directory, and every directory made for it got the
    * device's owner unless chowning it failed. */
  lemma {:induction false} AddDeviceCreates(st: FsState, msg: AddDeviceMsg, f: Faults)
    requires !SameDeviceAt(st.nodes, msg.device)
    requires AddDevice(st, msg, f).err.None?
    ensures var d, o := msg.device, AddDevice(st, msg, f).st;
            d.path in o.nodes && o.nodes[d.path] == DevNode(d.typ, d.major, d.minor) &&
            o.perm[d.path] == d.fileMode && o.owner[d.path] == (d.uid, d.gid) &&
            IsDirAt(o.nodes, Dir(d.path))
  {
    var d := msg.device;
    var st1 := if msg.force then Remove(st, d.path, f).st else st;
    var mk := MkdirAll(st1, Dir(d.path), f);
    var need := Missing(st1.nodes, Dir(d.path));
    var st2 := ChownEach(mk.st, need, d.uid, d.gid, f);
    var mn := MknodDevice(st2, d.path, d, f);
    assert !Present(st2.nodes, d.path);
    assert IsDirAt(st2.nodes, Dir(d.path));
  }

  /** Without `force`, a different node already at the path makes the
    * request fail; with `force` it is removed first. */
  lemma {:induction false} AddDeviceOccupied(st: FsState, msg: AddDeviceMsg, f: Faults)
    requires !msg.force && Present(st.nodes, msg.device.path) && !SameDeviceAt(st.nodes, msg.device)
    ensures AddDevice(st, msg, f).err.Some?
  {
    var d := msg.device;
    var mk := MkdirAll(st, Dir(d.path), f);
    if mk.err.None? {
      var need := Missing(st.nodes, Dir(d.path));
      var st2 := ChownEach(mk.st, need, d.uid, d.gid, f);
      assert Present(st2.nodes, d.path);
    }
  }

  /** `doRemoveDevice`: nothing there is success, something that is not a
    * device is refused, a device is unlinked. */
  lemma {:induction false} RemoveDeviceCases(st: FsState, d: Device, f: Faults)
    ensures !Present(st.nodes, d.path) ==> RemoveDevice(st, d, f) == Outcome(st, None)
    ensures Present(st.nodes, d.path) && (d.path !in st.nodes || !st.nodes[d.path].DevNode?) ==>
              RemoveDevice(st, d, f) == Outcome(st, Some("not a device"))
    ensures d.path in st.nodes && st.nodes[d.path].DevNode? && f.remove(d.path).None? && !HasChildren(st.nodes, d.path) ==>
              RemoveDevice(st, d, f).err.None? && RemoveDevice(st, d, f).st.nodes == st.nodes - {d.path}
  {
  }

  /** In a well-formed tree nothing lies inside a device node. */
  lemma {:induction false} DeviceHasNoChildren(nodes: map<string, Node>, p: string)
    requires WellFormed(nodes) && p in nodes && nodes[p].DevNode?
    ensures !HasChildren(nodes, p)
  {
    forall q | q in nodes
      ensures Dir(q) != p
    {
      assert IsDirAt(nodes, Dir(q));
    }
  }

  /** Removing a device just added takes exactly its node away again. */
  lemma {:induction false} RemoveAfterAddDevice(st: FsState, msg: AddDeviceMsg, f: Faults)
    requires WellFormed(st.nodes)
    requires !SameDeviceAt(st.nodes, msg.device) && AddDevice(st, msg, f).err.None?
    requires f.remove(msg.device.path).None?
    ensures var added := AddDevice(st, msg, f).st;
            RemoveDevice(added, msg.device, f) == Outcome(added.(nodes := added.nodes - {msg.device.path},
                                                                owner := added.owner - {msg.device.path},
                                                                perm := added.perm - {msg.device.path}), None)
  {
    var added := AddDevice(st, msg, f).st;
    AddDeviceCreates(st, msg, f);
    AddDeviceKeepsTree(st, msg, f);
    DeviceHasNoChildren(added.nodes, msg.device.path);
  }

  // ---------------------------------------------------------------------
  // Sysctl keys

  lemma {:induction false} ReplaceAllOneChar(s: string, a: char, b: char)
    ensures ReplaceAll(s, [a], [b]) == ReplaceChar(s, a, b)
    decreases |s|
  {
    if |s| >= 1 {
      ReplaceAllOneChar(s[1..], a, b);
      assert s[..1] == [s[0]];
    }
  }

  lemma {:induction false} ReplaceJoin(names: seq<string>, a: char, b: char)
    requires forall i :: 0 <= i < |names| ==> a !in names[i]
    ensures ReplaceChar(Join(names, a), a, b) == Join(names, b)
    decreases |names|
  {
    if |names| == 1 {
      assert ReplaceChar(names[0], a, b) == names[0];
    } else if |names| > 1 {
      ReplaceJoin(names[1..], a, b);
      var rest := Join(names[1..], a);
      assert Join(names, a) == names[0] + ([a] + rest);
      ReplaceConcat(names[0], [a] + rest, a, b);
      ReplaceConcat([a], rest, a, b);
      assert ReplaceChar(names[0], a, b) == names[0];
    }
  }

  lemma {:induction false} ReplaceConcat(x: string, y: string, a: char, b: char)
    ensures ReplaceChar(x + y, a, b) == ReplaceChar(x, a, b) + ReplaceChar(y, a, b)
  {
    var l, r := ReplaceChar(x + y, a, b), ReplaceChar(x, a, b) + ReplaceChar(y, a, b);
    assert |l| == |r|;
    forall i | 0 <= i < |l|
      ensures l[i] == r[i]
    {
      if i >= |x| {
        assert (x + y)[i] == y[i - |x|];
      }
    }
  }

  /** A dotted key of plain names is written to the file of the same path
    * under /proc/sys: "net.ipv4.ip_forward" is
    * /proc/sys/net/ipv4/ip_forward. */
  lemma {:induction false} SysctlPathOfKey(names: seq<string>)
    requires |names| >= 1
    requires forall i :: 0 <= i < |names| ==> names[i] != "" && '.' !in names[i] && '/' !in names[i]
    ensures SysctlPath(Join(names, '.')) == ProcSys + "/" + Join(names, '/')
  {
    DottedKey(names);
    DotFreePlain(names);
    ProcSysUnder(names);
  }

  lemma {:induction false} ProcSysUnder(names: seq<string>)
    requires |names| >= 1
    requires forall i :: 0 <= i < |names| ==> PlainName(names[i])
    ensures JoinPath([ProcSys, Join(names, '/')]) == ProcSys + "/" + Join(names, '/')
  {
    var parts := ["proc", "sys"];
    assert ProcSys == "/" + Join(parts, '/') by {
      assert parts[1..] == ["sys"];
    }
    JoinUnder(ProcSys, parts, names);
  }

  /** The key's dots become the slashes between its names. */
  lemma {:induction false} DottedKey(names: seq<string>)
    requires forall i :: 0 <= i < |names| ==> '.' !in names[i]
    ensures ReplaceAll(Join(names, '.'), ".", "/") == Join(names, '/')
  {
    ReplaceAllOneChar(Join(names, '.'), '.', '/');
    ReplaceJoin(names, '.', '/');
  }

  lemma {:induction false} DotFreePlain(names: seq<string>)
    requires forall i :: 0 <= i < |names| ==> names[i] != "" && '.' !in names[i] && '/' !in names[i]
    ensures forall i :: 0 <= i < |names| ==> PlainName(names[i])
  {
    forall i | 0 <= i < |names|
      ensures PlainName(names[i])
    {
      var x := names[i];
      assert x[0] != '.';
    }
  }

  // ---------------------------------------------------------------------
  // Binds and mounts

  /** The transfer base is always mounted with "ro,bind,rslave": when the
    * option parser reads a read-only bind from it, the base is mounted and
    * then remounted, and no propagation-only call is made. */
  lemma {:induction false} TransferBaseCalls(st: FsState, b: Bind, f: Faults)
    requires {MountFlag.Bind, RdOnly} <= f.parse(TransferBaseOptions).flags
    requires AddTransferBase(st, b, f).err.None?
    ensures var mk := MkdirAll(st, b.containerPath, f).st;
            var p := f.parse(TransferBaseOptions);
            AddTransferBase(st, b, f).st.mounts == mk.mounts + [
              MountCall(b.hostPath, b.containerPath, "none", p.flags - Propagation, p.data),
              MountCall(b.hostPath, b.containerPath, "none", p.flags + {Remount}, p.data)]
  {
  }

  /** A bind's mount point exists after a successful `doAddBind`, as a
    * directory for a directory bind. */
  lemma {:induction false} AddBindTarget(st: FsState, b: Bind, f: Faults)
    requires AddBind(st, b, f).err.None?
    ensures b.isDir ==> IsDirAt(AddBind(st, b, f).st.nodes, b.containerPath)
    ensures !b.isDir ==> b.containerPath in AddBind(st, b, f).st.nodes &&
                         !AddBind(st, b, f).st.nodes[b.containerPath].DirNode?
  {
  }

  /** A "link" request fails only when the destination exists or its
    * parent is not a directory; a missing parent is silently no link. */
  lemma {:induction false} LinkOutcome(st: FsState, m: MountMsg, f: Faults)
    requires m.typ == "link"
    ensures DoMount(st, m, f).err.None? <==>
              !Present(st.nodes, m.destination) && !(Present(st.nodes, Dir(m.destination)) && !IsDirAt(st.nodes, Dir(m.destination)))
    ensures DoMount(st, m, f).err.None? && IsDirAt(st.nodes, Dir(m.destination)) && ReplaceAll(m.destination, "/dev", "/.dev") != m.destination ==>
              DoMount(st, m, f).st.nodes[m.destination] == LinkNode(m.source)
  {
  }

  // ---------------------------------------------------------------------
  // The record written back

  /** A record is written exactly when the pipe descriptor is read; it is
    * empty exactly when a known work type was handled without error; a bad
    * work type changes nothing. */
  lemma {:induction false} WorkRecord(st: FsState, pipeEnv: string, typeEnv: string, req: Requests, f: Faults)
    ensures Work(st, pipeEnv, typeEnv, req, f).record.Some? <==> Atoi(pipeEnv).Some?
    ensures Work(st, pipeEnv, typeEnv, req, f).record == Some("") <==>
              Atoi(pipeEnv).Some? && Atoi(typeEnv).Some? && NsExec.WorkOfCode(Atoi(typeEnv).value).Some? &&
              Handle(st, NsExec.WorkOfCode(Atoi(typeEnv).value).value, req, f).err.None?
    ensures Atoi(pipeEnv).Some? && (Atoi(typeEnv).None? || !(1 <= Atoi(typeEnv).value <= 7)) ==>
              Work(st, pipeEnv, typeEnv, req, f) == Run(st, Work(st, pipeEnv, typeEnv, req, f).record) &&
              Work(st, pipeEnv, typeEnv, req, f).record.value != ""
  {
  }

  /** Driver and worker together: for a child started with the environment
    * of work `w` whose run was delivered, the driver reports success
    * exactly when the worker's handler succeeded, and otherwise the
    * handler's error. */
  lemma {:induction false} DriverSeesHandler(st: FsState, w: NsExec.Work, req: Requests, f: Faults, run: NsExec.ChildRun)
    requires NsExec.Delivered(run)
    requires run.errRecord == Ok(Work(st, "3", NsExec.ChildEnv(w)[1][|NsExec.WorkType| + 1..], req, f).record.value)
    ensures NsExec.Exec(run).None? <==> Handle(st, w, req, f).err.None?
    ensures Handle(st, w, req, f).err.Some? ==> NsExec.Exec(run).Some? && NsExec.Exec(run).value == Handle(st, w, req, f).err.value
  {
    NsExec.ChildEnvWorkType(w);
    NsExec.CodesDistinct(w, w);
    assert Atoi("3") == Some(3) by {
      AtoiIntToString(3);
    }
  }
}

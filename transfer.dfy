// The transfer paths through which a host path reaches a running container
// (utils/transfer.go).  The host path is bind-mounted onto a middle path,
// the middle path onto a path under the container's shared master
// directory, and mount propagation carries it into the container under
// "/.sharedpath".  The host's file system calls are inputs (`HostOps`), the
// SHA-256 digest of a host path is the function `digest`, and the answer of
// `GetSource` for a path is the function `source`.
module Transfer {
  import opened Wrappers
  import opened Strs
  import opened Paths
  import opened DeviceTypes
  import Mounter

  const MasterPath: string := "/.sharedpath/master"
  const MidTransferPath: string := "/.sharedpath/midpath"
  const SlavePath: string := "/.sharedpath"

  /** What the host answers to the calls the transfer code makes. */
  datatype HostOps = HostOps(
    present: string -> bool,                         // os.Stat finds the path
    mkdirAll: string -> Option<string>,              // os.MkdirAll
    openFile: string -> Option<string>,              // os.OpenFile with O_CREATE
    mounted: string -> Result<bool>,                 // mount.Mounted
    mount: (string, string, string) -> Option<string>,  // mount.Mount(src, dst, "none", opt)
    unmount: string -> Option<string>,               // mount.Unmount
    removeAll: string -> Option<string>)             // os.RemoveAll

  /** One call made on the host, in the order made. */
  datatype HostStep =
    | MkdirAll(path: string)
    | CreateFile(path: string)
    | MountAt(source: string, target: string, options: string)
    | Unmount(path: string)
    | RemoveAll(path: string)

  /** The error of a sequence of host calls and the calls made. */
  datatype Done = Done(err: Option<string>, steps: seq<HostStep>)

  // ---------------------------------------------------------------------
  // Path derivations

  /** `GetContainerSpecDir`: the container's directory under the master. */
  function GetContainerSpecDir(id: string): string
  {
    JoinPath([MasterPath, id])
  }

  /** `GetContainerMidDir`: the container's directory under the middle
    * paths. */
  function GetContainerMidDir(id: string): string
  {
    JoinPath([MidTransferPath, id])
  }

  /** `getRelativePath`: where the host path appears in the container,
    * relative to the container root. */
  function GetRelativePath(digest: string -> string, hostPath: string): string
  {
    JoinPath([SlavePath, digest(hostPath)])
  }

  /** `getTransferPath`: the middle path and the transfer path of a host
    * path. */
  function GetTransferPath(digest: string -> string, id: string, hostPath: string): (string, string)
  {
    (JoinPath([MidTransferPath, id, digest(hostPath)]), JoinPath([GetContainerSpecDir(id), digest(hostPath)]))
  }

  /** A path made of a rooted head of plain elements and one more plain
    * element is the two put together with a '/'. */
  lemma {:induction false} OneBelow(head: string, parts: seq<string>, name: string)
    requires |parts| >= 1 && forall i :: 0 <= i < |parts| ==> PlainName(parts[i])
    requires PlainName(name) && head == "/" + Join(parts, '/')
    ensures JoinPath([head, name]) == head + "/" + name
  {
    assert Join([name], '/') == name;
    JoinUnder(head, parts, [name]);
  }

  /** The master directory of a container whose id is a plain name is
    * "/.sharedpath/master/<id>". */
  lemma {:induction false} SpecDirOf(id: string)
    requires PlainName(id)
    ensures GetContainerSpecDir(id) == MasterPath + "/" + id
  {
    var parts := [".sharedpath", "master"];
    assert MasterPath == "/" + Join(parts, '/') by {
      assert Join(parts, '/') == ".sharedpath" + "/" + Join(["master"], '/');
    }
    OneBelow(MasterPath, parts, id);
  }

  /** ... and its middle directory "/.sharedpath/midpath/<id>". */
  lemma {:induction false} MidDirOf(id: string)
    requires PlainName(id)
    ensures GetContainerMidDir(id) == MidTransferPath + "/" + id
  {
    var parts := [".sharedpath", "midpath"];
    assert MidTransferPath == "/" + Join(parts, '/') by {
      assert Join(parts, '/') == ".sharedpath" + "/" + Join(["midpath"], '/');
    }
    OneBelow(MidTransferPath, parts, id);
  }

  /** Inside the container the host path appears as "/.sharedpath/<hash>". */
  lemma {:induction false} RelativePathOf(digest: string -> string, hostPath: string)
    requires PlainName(digest(hostPath))
    ensures GetRelativePath(digest, hostPath) == SlavePath + "/" + digest(hostPath)
  {
    var parts := [".sharedpath"];
    assert SlavePath == "/" + Join(parts, '/');
    OneBelow(SlavePath, parts, digest(hostPath));
  }

  /** Joining three elements, the first not empty, is joining the first
    * with the other two put together. */
  lemma {:induction false} JoinThree(a: string, b: string, c: string)
    requires a != ""
    ensures JoinPath([a, b, c]) == JoinPath([a, b + "/" + c])
  {
    assert [a, b, c][1..] == [b, c];
    assert [b, c][1..] == [c];
    assert Join([b, c], '/') == b + "/" + Join([c], '/');
    assert Join([a, b, c], '/') == a + "/" + Join([b, c], '/');
    JoinPathPair(a, b + "/" + c);
  }

  /** Two plain names below a rooted head of plain elements. */
  lemma {:induction false} TwoBelow(head: string, parts: seq<string>, x: string, y: string)
    requires |parts| >= 1 && forall i :: 0 <= i < |parts| ==> PlainName(parts[i])
    requires PlainName(x) && PlainName(y) && head == "/" + Join(parts, '/')
    ensures JoinPath([head, x, y]) == head + "/" + x + "/" + y
  {
    var names := [x, y];
    var xy := x + "/" + y;
    assert Join(names, '/') == xy by {
      assert names[1..] == [y];
    }
    assert forall i :: 0 <= i < |names| ==> PlainName(names[i]);
    JoinUnder(head, parts, names);
    JoinThree(head, x, y);
    RegroupSep(head, x, y, "/");
  }

  /** Concatenation regrouped around a separator. */
  lemma RegroupSep(h: string, x: string, y: string, s: string)
    ensures h + s + (x + s + y) == h + s + x + s + y
  {
  }

  /** The middle path is "/.sharedpath/midpath/<id>/<hash>". */
  lemma {:induction false} MidPathOf(digest: string -> string, id: string, hostPath: string)
    requires PlainName(id) && PlainName(digest(hostPath))
    ensures GetTransferPath(digest, id, hostPath).0 == MidTransferPath + "/" + id + "/" + digest(hostPath)
  {
    var parts := [".sharedpath", "midpath"];
    assert MidTransferPath == "/" + Join(parts, '/') by {
      assert Join(parts, '/') == ".sharedpath" + "/" + Join(["midpath"], '/');
    }
    TwoBelow(MidTransferPath, parts, id, digest(hostPath));
  }

  /** A plain name below a plain name below a rooted head of plain
    * elements. */
  lemma {:induction false} BelowBelow(head: string, parts: seq<string>, x: string, y: string)
    requires |parts| >= 1 && forall i :: 0 <= i < |parts| ==> PlainName(parts[i])
    requires PlainName(x) && PlainName(y) && head == "/" + Join(parts, '/')
    ensures JoinPath([JoinPath([head, x]), y]) == head + "/" + x + "/" + y
  {
    OneBelow(head, parts, x);
    var more := parts + [x];
    JoinAppend(parts, [x], '/');
    assert Join([x], '/') == x;
    assert forall i :: 0 <= i < |more| ==> PlainName(more[i]);
    OneBelow(head + "/" + x, more, y);
  }

  /** The transfer path is "/.sharedpath/master/<id>/<hash>". */
  lemma {:induction false} TransferPathOf(digest: string -> string, id: string, hostPath: string)
    requires PlainName(id) && PlainName(digest(hostPath))
    ensures GetTransferPath(digest, id, hostPath).1 == MasterPath + "/" + id + "/" + digest(hostPath)
  {
    var parts := [".sharedpath", "master"];
    assert MasterPath == "/" + Join(parts, '/') by {
      assert Join(parts, '/') == ".sharedpath" + "/" + Join(["master"], '/');
    }
    BelowBelow(MasterPath, parts, id, digest(hostPath));
  }

  /** Different host paths get different transfer paths when the digest
    * tells them apart. */
  lemma {:induction false} TransferPathsDistinct(digest: string -> string, id: string, a: string, b: string)
    requires PlainName(id) && PlainName(digest(a)) && PlainName(digest(b)) && digest(a) != digest(b)
    ensures GetTransferPath(digest, id, a).0 != GetTransferPath(digest, id, b).0
    ensures GetTransferPath(digest, id, a).1 != GetTransferPath(digest, id, b).1
  {
    MidPathOf(digest, id, a);
    MidPathOf(digest, id, b);
    TransferPathOf(digest, id, a);
    TransferPathOf(digest, id, b);
    var pa := MidTransferPath + "/" + id + "/";
    assert GetTransferPath(digest, id, a).0[|pa|..] == digest(a);
    assert GetTransferPath(digest, id, b).0[|pa|..] == digest(b);
    var qa := MasterPath + "/" + id + "/";
    assert GetTransferPath(digest, id, a).1[|qa|..] == digest(a);
    assert GetTransferPath(digest, id, b).1[|qa|..] == digest(b);
  }

  // ---------------------------------------------------------------------
  // Preparing and releasing mount points

  /** `parepareMountpoint`: a directory, or a regular file in a created
    * parent directory, to match `isDir`; then the mount, unless the path is
    * already a mount point. */
  function PrepareMountpoint(ops: HostOps, src: string, dst: string, opt: string, isDir: bool): (r: Done)
    ensures isDir ==> |r.steps| >= 1 && r.steps[0] == MkdirAll(dst) && CreateFile(dst) !in r.steps
    ensures !isDir ==> |r.steps| >= 1 && r.steps[0] == MkdirAll(Dir(dst)) &&
                       (ops.mkdirAll(Dir(dst)).None? ==> |r.steps| >= 2 && r.steps[1] == CreateFile(dst))
    ensures ops.mounted(dst) != Ok(false) ==> forall s :: s in r.steps ==> !s.MountAt?
    ensures r.err.None? && ops.mounted(dst) != Ok(true) ==> r.steps[|r.steps| - 1] == MountAt(src, dst, opt)
    ensures r.err.None? ==> ops.mounted(dst).Ok?
  {
    var made :=
      if isDir then Done(ops.mkdirAll(dst), [MkdirAll(dst)])
      else if ops.mkdirAll(Dir(dst)).Some? then Done(ops.mkdirAll(Dir(dst)), [MkdirAll(Dir(dst))])
      else
        var steps := [MkdirAll(Dir(dst)), CreateFile(dst)];
        match ops.openFile(dst)
        case Some(e) => Done(Some("Fail to create transfer path,err: " + e), steps)
        case None => Done(None, steps);
    if made.err.Some? then made
    else
      match ops.mounted(dst)
      case Err(e) => Done(Some("Failed to mount path " + dst + ", err: " + e), made.steps)
      case Ok(m) =>
        if m then made else Done(ops.mount(src, dst, opt), made.steps + [MountAt(src, dst, opt)])
  }

  /** `releaseMountpoint`: nothing for a missing path; otherwise unmount
    * (whose failure is only logged) and remove. */
  function ReleaseMountpoint(ops: HostOps, p: string): (r: Done)
    ensures !ops.present(p) ==> r == Done(None, [])
    ensures ops.present(p) ==> r == Done(ops.removeAll(p), [Unmount(p), RemoveAll(p)])
  {
    if !ops.present(p) then Done(None, [])
    else Done(ops.removeAll(p), [Unmount(p), RemoveAll(p)])
  }

  /** `RemoveTransferPath`: release the middle path, then the transfer
    * path; failures are only logged, so it never fails. */
  function RemoveTransferPath(ops: HostOps, digest: string -> string, id: string, b: Bind): (r: Done)
    ensures r.err.None?
    ensures var (mid, tr) := GetTransferPath(digest, id, b.hostPath);
            r.steps == ReleaseMountpoint(ops, mid).steps + ReleaseMountpoint(ops, tr).steps
    ensures var (mid, tr) := GetTransferPath(digest, id, b.hostPath);
            !ops.present(mid) && !ops.present(tr) ==> r.steps == []
  {
    var (mid, tr) := GetTransferPath(digest, id, b.hostPath);
    Done(None, ReleaseMountpoint(ops, mid).steps + ReleaseMountpoint(ops, tr).steps)
  }

  /** The bind after `PrepareTransferPath`, its error and the host calls. */
  datatype Prepared = Prepared(bind: Bind, err: Option<string>, steps: seq<HostStep>)

  /** What marking appends to a bind's options. */
  const BindSuffix: string := ",bind"

  /** The bind as `PrepareTransferPath` leaves it, whatever else happens:
    * ",bind" appended to its options and the resolved path set. */
  function MarkedBind(digest: string -> string, containerPath: string, b: Bind): Bind
  {
    b.(mountOption := b.mountOption + BindSuffix,
       resolvPath := JoinPath([containerPath, GetRelativePath(digest, b.hostPath)]))
  }

  /** `PrepareTransferPath`: mark the bind; then, with `doMount`, check the
    * propagation of the host path's mount, prepare the middle path, then
    * the transfer path, stopping at the first failure. */
  function PrepareTransferPath(ops: HostOps, digest: string -> string, source: string -> Result<(string, string)>,
                               containerPath: string, id: string, b: Bind, doMount: bool): (r: Prepared)
    ensures r.bind == MarkedBind(digest, containerPath, b)
    ensures !doMount ==> r.err.None? && r.steps == []
    ensures var opt := r.bind.mountOption;
            var verdict := Mounter.PropagationVerdict(b.hostPath, Split(opt, ','), source(b.hostPath));
            doMount && verdict.Some? ==> r.err == verdict && r.steps == []
    ensures var opt := r.bind.mountOption;
            var (mid, tr) := GetTransferPath(digest, id, b.hostPath);
            var verdict := Mounter.PropagationVerdict(b.hostPath, Split(opt, ','), source(b.hostPath));
            var first := PrepareMountpoint(ops, b.hostPath, mid, opt, b.isDir);
            doMount && verdict.None? ==>
              if first.err.Some? then r.err == first.err && r.steps == first.steps
              else
                var second := PrepareMountpoint(ops, mid, tr, opt, b.isDir);
                r.err == second.err && r.steps == first.steps + second.steps
  {
    var nb := MarkedBind(digest, containerPath, b);
    if !doMount then Prepared(nb, None, [])
    else
      var (mid, tr) := GetTransferPath(digest, id, b.hostPath);
      var verdict := Mounter.PropagationVerdict(b.hostPath, Split(nb.mountOption, ','), source(b.hostPath));
      if verdict.Some? then Prepared(nb, verdict, [])
      else
        var first := PrepareMountpoint(ops, b.hostPath, mid, nb.mountOption, b.isDir);
        if first.err.Some? then Prepared(nb, first.err, first.steps)
        else
          var second := PrepareMountpoint(ops, mid, tr, nb.mountOption, b.isDir);
          Prepared(nb, second.err, first.steps + second.steps)
  }

  /** ",bind" puts "bind" among the option items, so with `doMount` the
    * propagation of the host path's mount is always checked. */
  lemma {:induction false} MarkedIsBind(digest: string -> string, containerPath: string, b: Bind)
    ensures "bind" in Split(MarkedBind(digest, containerPath, b).mountOption, ',')
  {
    var o := b.mountOption;
    assert o + ",bind" == o + [','] + "bind";
    SplitConcat(o, "bind", ',');
    SplitNoSep("bind", ',');
    assert Split(o + [','] + "bind", ',')[|Split(o, ',')|] == "bind";
  }

  /** Every call marks the bind again: two calls append ",bind" twice. */
  lemma MarkedTwice(digest: string -> string, containerPath: string, b: Bind)
    ensures MarkedBind(digest, containerPath, MarkedBind(digest, containerPath, b)).mountOption ==
            b.mountOption + BindSuffix + BindSuffix
  {
  }
}

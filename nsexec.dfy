// The driver that runs privileged work inside a container's namespaces
// (libdevice/nsexec/nsexec.go): which namespaces each kind of work joins,
// the namespace-path string handed to the re-executed child, the work code
// it is told in its environment, and how the record the child writes back
// becomes the driver's error.  Starting the child and the netlink framing
// are outside the model; what they report is an input.
module NsExec {
  import opened Wrappers
  import opened Strs
  import opened Seqs

  /** The seven kinds of work the child can do. */
  datatype Work = AddDeviceWork | RemoveDeviceWork | AddBindWork | RemoveBindWork
                | AddTransferBaseWork | UpdateSysctlWork | MountWork

  /** The message code sent for each kind of work. */
  function Code(w: Work): (c: int)
    ensures 1 <= c <= 7
  {
    match w
    case AddDeviceWork => 1
    case RemoveDeviceWork => 2
    case AddBindWork => 3
    case RemoveBindWork => 4
    case AddTransferBaseWork => 5
    case UpdateSysctlWork => 6
    case MountWork => 7
  }

  /** The kind of work a code names, as the child reads it. */
  function WorkOfCode(c: int): (w: Option<Work>)
    ensures w.Some? <==> 1 <= c <= 7
  {
    if c == 1 then Some(AddDeviceWork)
    else if c == 2 then Some(RemoveDeviceWork)
    else if c == 3 then Some(AddBindWork)
    else if c == 4 then Some(RemoveBindWork)
    else if c == 5 then Some(AddTransferBaseWork)
    else if c == 6 then Some(UpdateSysctlWork)
    else if c == 7 then Some(MountWork)
    else None
  }

  /** Codes and kinds of work correspond one to one, so no two kinds share
    * a code. */
  lemma CodesDistinct(w: Work, v: Work)
    ensures WorkOfCode(Code(w)) == Some(w)
    ensures Code(w) == Code(v) ==> w == v
  {
  }

  lemma CodeOfWork(c: int)
    requires 1 <= c <= 7
    ensures Code(WorkOfCode(c).value) == c
  {
  }

  /** The namespaces each driver method joins: every kind of work enters
    * only the mount namespace, except the sysctl update, which enters the
    * IPC, network and mount namespaces in that order. */
  function Namespaces(w: Work): (r: seq<string>)
    ensures w != UpdateSysctlWork ==> r == ["mnt"]
    ensures w == UpdateSysctlWork ==> r == ["ipc", "net", "mnt"]
  {
    if w == UpdateSysctlWork then ["ipc", "net", "mnt"] else ["mnt"]
  }

  /** One entry of the namespace-path string: "<ns>:/proc/<pid>/ns/<ns>". */
  function NsPath(pid: string, ns: string): string
  {
    ns + ":/proc/" + pid + "/ns/" + ns
  }

  /** The entries of every namespace, in order, joined with ','. */
  function NsPaths(pid: string, namespaces: seq<string>): string
  {
    Join(Map(namespaces, ns => NsPath(pid, ns)), ',')
  }

  /** `buildNSString`. */
  method BuildNSString(pid: string, namespaces: seq<string>) returns (nsPaths: string)
    ensures nsPaths == NsPaths(pid, namespaces)
  {
    ghost var entries := Map(namespaces, ns => NsPath(pid, ns));
    nsPaths := "";
    for i := 0 to |namespaces|
      invariant nsPaths == Join(entries[..i], ',')
      invariant nsPaths == "" <==> i == 0
    {
      if nsPaths != "" {
        nsPaths := nsPaths + ",";
      }
      var entry := NsPath(pid, namespaces[i]);
      assert entries[..i + 1] == entries[..i] + [entry];
      if i > 0 {
        JoinAppend(entries[..i], [entry], ',');
      }
      nsPaths := nsPaths + entry;
    }
    assert entries[..|namespaces|] == entries;
  }

  /** No namespaces, no string; otherwise the string splits back into one
    * entry per namespace when neither the pid nor a namespace holds a ','. */
  lemma NsPathsEntries(pid: string, namespaces: seq<string>)
    requires ',' !in pid && forall i :: 0 <= i < |namespaces| ==> ',' !in namespaces[i]
    ensures |namespaces| == 0 ==> NsPaths(pid, namespaces) == ""
    ensures |namespaces| > 0 ==>
              Split(NsPaths(pid, namespaces), ',') == Map(namespaces, ns => NsPath(pid, ns))
  {
    var entries := Map(namespaces, ns => NsPath(pid, ns));
    if |namespaces| > 0 {
      forall i | 0 <= i < |entries|
        ensures ',' !in entries[i]
      {
        assert entries[i] == namespaces[i] + ":/proc/" + pid + "/ns/" + namespaces[i];
      }
      SplitJoin(entries, ',');
    }
  }

  /** The namespace paths each driver method sends, for a container pid. */
  lemma DriverNsPaths(pid: string, w: Work)
    ensures w != UpdateSysctlWork ==> NsPaths(pid, Namespaces(w)) == NsPath(pid, "mnt")
    ensures w == UpdateSysctlWork ==>
              NsPaths(pid, Namespaces(w)) == NsPath(pid, "ipc") + "," + NsPath(pid, "net") + "," + NsPath(pid, "mnt")
  {
    if w == UpdateSysctlWork {
      NsPathsThree(pid, "ipc", "net", "mnt");
    } else {
      NsPathsOne(pid, "mnt");
    }
  }

  lemma NsPathsOne(pid: string, x: string)
    ensures NsPaths(pid, [x]) == NsPath(pid, x)
  {
    assert Map([x], ns => NsPath(pid, ns)) == [NsPath(pid, x)];
  }

  lemma NsPathsThree(pid: string, x: string, y: string, z: string)
    ensures NsPaths(pid, [x, y, z]) == NsPath(pid, x) + "," + NsPath(pid, y) + "," + NsPath(pid, z)
  {
    var e := Map([x, y, z], ns => NsPath(pid, ns));
    assert e == [NsPath(pid, x), NsPath(pid, y), NsPath(pid, z)];
    assert e[1..] == [NsPath(pid, y), NsPath(pid, z)];
    assert e[1..][1..] == [NsPath(pid, z)];
    assert Join(e[1..], ',') == NsPath(pid, y) + [','] + NsPath(pid, z);
    assert Join(e, ',') == NsPath(pid, x) + [','] + Join(e[1..], ',');
  }

  const InitPipe: string := "_LIBCONTAINER_INITPIPE"
  const WorkType: string := "_ISULAD_TOOLS_WORKTYPE"

  /** The child's whole environment: the init pipe is descriptor 3, and the
    * work type is the code of the work. */
  function ChildEnv(w: Work): (env: seq<string>)
    ensures |env| == 2
  {
    [InitPipe + "=3", WorkType + "=" + IntToString(Code(w))]
  }

  /** The child reads its work type back from its environment. */
  lemma ChildEnvWorkType(w: Work)
    ensures HasPrefix(ChildEnv(w)[1], WorkType + "=")
    ensures Atoi(ChildEnv(w)[1][|WorkType| + 1..]) == Some(Code(w))
  {
    var t := WorkType + "=";
    var e := t + IntToString(Code(w));
    assert e[..|t|] == t;
    assert e[|t|..] == IntToString(Code(w));
    AtoiIntToString(Code(w));
  }

  /** What happens around one run of the child: the failures of creating
    * the pipe, starting the child, sending the namespace paths, sending the
    * payload and waiting; whether the leading pid record decoded; and the
    * error record read after the child exited. */
  datatype ChildRun = ChildRun(
    pipeErr: Option<string>,
    startErr: Option<string>,
    sendPathsErr: Option<string>,
    sendDataErr: Option<string>,
    waitErr: Option<string>,
    pidDecodeErr: Option<string>,
    errRecord: Result<string>)

  /** No step failed before the child's answer was read. */
  predicate Delivered(run: ChildRun)
  {
    run.pipeErr.None? && run.startErr.None? && run.sendPathsErr.None? && run.sendDataErr.None? && run.waitErr.None?
  }

  /** `exec`: the first failing step is the error, before any record is
    * read; a pid record that does not decode is only reported; an error
    * record that does not decode is an error; a non-empty error text from
    * the child is the error. */
  function Exec(run: ChildRun): (err: Option<string>)
    ensures err.None? <==> Delivered(run) && run.errRecord == Ok("")
    ensures Delivered(run) && run.errRecord.Ok? && run.errRecord.value != "" ==> err == Some(run.errRecord.value)
    ensures run.pipeErr.Some? ==> err == run.pipeErr
    ensures run.pipeErr.None? && run.startErr.Some? ==> err == run.startErr
  {
    if run.pipeErr.Some? then run.pipeErr
    else if run.startErr.Some? then run.startErr
    else if run.sendPathsErr.Some? then run.sendPathsErr
    else if run.sendDataErr.Some? then run.sendDataErr
    else if run.waitErr.Some? then run.waitErr
    else match run.errRecord
      case Err(e) => Some(e)
      case Ok(msg) => if msg != "" then Some(msg) else None
  }

  /** The pid record never decides the outcome. */
  lemma PidRecordIgnored(run: ChildRun, e: Option<string>)
    ensures Exec(run.(pidDecodeErr := e)) == Exec(run)
  {
  }

  /** Once a step before the wait fails, nothing the child might answer
    * matters. */
  lemma AbortBeforeRead(run: ChildRun, answer: Result<string>)
    requires !Delivered(run)
    ensures Exec(run.(errRecord := answer)) == Exec(run)
  {
  }
}

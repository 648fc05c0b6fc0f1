// What the tools learn about a container from the container engine
// (container/container.go): the accepted container names, and the text
// `isula inspect` and `isula info` print, turned into the container's id,
// pid, storage directory and cgroup path.  The command output is an input
// (`Err` when the command itself failed).
module ContainerInfo {
  import opened Wrappers
  import opened Strs
  import opened Paths
  import opened OciSpec

  // ---------------------------------------------------------------------
  // Container names

  predicate NameHead(c: char)
  {
    'a' <= c <= 'z' || 'A' <= c <= 'Z' || '0' <= c <= '9'
  }

  predicate NameChar(c: char)
  {
    NameHead(c) || c == '_' || c == '.' || c == '-'
  }

  /** What the name pattern ^/?[a-zA-Z0-9][a-zA-Z0-9_.-]+$ matches. */
  predicate RestrictedName(name: string)
  {
    var body := if |name| > 0 && name[0] == '/' then name[1..] else name;
    |body| >= 2 && NameHead(body[0]) && forall i :: 1 <= i < |body| ==> NameChar(body[i])
  }

  /** An accepted name has at least two characters after the optional
    * leading '/', and no other '/'. */
  lemma NameShape(name: string)
    requires RestrictedName(name)
    ensures |name| >= 2
    ensures forall i :: 1 <= i < |name| ==> name[i] != '/'
  {
    var body := if name[0] == '/' then name[1..] else name;
    assert NameHead(body[0]);
    forall i | 1 <= i < |name|
      ensures name[i] != '/'
    {
      if name[0] != '/' {
        assert NameChar(body[i]);
      } else if i == 1 {
        assert name[i] == body[0];
      } else {
        assert name[i] == body[i - 1] && NameChar(body[i - 1]);
      }
    }
  }

  /** The leading '/' is optional, but only one is allowed. */
  lemma SlashOptional(name: string)
    requires RestrictedName(name) && name[0] != '/'
    ensures RestrictedName("/" + name)
    ensures !RestrictedName("//" + name)
  {
    assert ("/" + name)[1..] == name;
    assert ("//" + name)[1..][0] == '/';
  }

  // ---------------------------------------------------------------------
  // Reading `isula` output

  const RootDirMarker: string := "iSulad Root Dir:"
  const RootDirMissing: string := "Faild to parse isula info, no \"iSulad Root Dir:\" found"

  /** `getIsuladGraphDriverPath`: on the first line that holds the marker,
    * the text between the first and the second ':' with spaces trimmed. */
  function GraphDriverPath(info: Result<string>): (r: Result<string>)
    ensures r.Err? <==> info.Err? || IndexOfSub(info.value, RootDirMarker).None?
  {
    match info
    case Err(e) => Err("Exec isula info failed: " + e)
    case Ok(out) =>
      match IndexOfSub(out, RootDirMarker)
      case None => Err(RootDirMissing)
      case Some(k) =>
        var line := Split(out[k..], '\n')[0];
        MarkerLineHasColon(out[k..]);
        var fields := Split(line, ':');
        if |fields| > 1 then Ok(Trim(fields[1], {' '})) else Err(RootDirMissing)
  }

  /** The first line from the marker on still starts with the marker, so it
    * always has a second ':'-field. */
  lemma MarkerLineHasColon(s: string)
    requires HasPrefix(s, RootDirMarker)
    ensures |Split(Split(s, '\n')[0], ':')| > 1
  {
    var m := RootDirMarker;
    assert '\n' !in m && m[|m| - 1] == ':' by {
      assert m == "iSulad Root Dir" + ":";
    }
    SplitHead(s, '\n');
    var line := Split(s, '\n')[0];
    assert s[..|m|] == m;
    assert line[|m| - 1] == ':';
    if Count(line, ':') == 0 {
      CountZero(line, ':');
    }
  }

  /** The directory is read between the marker's ':' and the next ':' (or
    * the end of the line). */
  lemma GraphDriverFromLine(out: string, k: nat, dir: string, rest: string)
    requires IndexOfSub(out, RootDirMarker) == Some(k)
    requires Split(out[k..], '\n')[0] == RootDirMarker + dir + rest
    requires ':' !in dir && (rest == "" || rest[0] == ':')
    ensures GraphDriverPath(Ok(out)) == Ok(Trim(dir, {' '}))
  {
    MarkerTitle();
    SecondField(RootDirTitle, dir, rest);
  }

  const RootDirTitle: string := "iSulad Root Dir"

  lemma MarkerTitle()
    ensures RootDirMarker == RootDirTitle + [':'] && ':' !in RootDirTitle
  {
  }

  lemma SecondField(title: string, dir: string, rest: string)
    requires ':' !in title && ':' !in dir && (rest == "" || rest[0] == ':')
    ensures |Split(title + [':'] + dir + rest, ':')| > 1
    ensures Split(title + [':'] + dir + rest, ':')[1] == dir
  {
    assert title + [':'] + dir + rest == title + [':'] + (dir + rest);
    SplitPrefix(title, dir + rest, ':');
    FirstField(dir, rest);
  }

  lemma FirstField(dir: string, rest: string)
    requires ':' !in dir && (rest == "" || rest[0] == ':')
    ensures Split(dir + rest, ':')[0] == dir
  {
    if rest == "" {
      assert dir + rest == dir;
      SplitNoSep(dir, ':');
    } else {
      var t := rest[1..];
      assert rest == [':'] + t;
      assert dir + rest == dir + [':'] + t;
      SplitPrefix(dir, t, ':');
    }
  }

  /** `getIsuladContainerID`: newlines, then double quotes, trimmed from
    * both ends. */
  function ContainerIDOf(out: string): string
  {
    Trim(Trim(out, {'\n'}), {'"'})
  }

  /** `getIsuladContainerPid`: the newline-trimmed text as a decimal int. */
  function PidOf(out: string): (r: Result<int>)
    ensures r.Ok? ==> IsInt(r.value)
  {
    var text := Trim(out, {'\n'});
    match Atoi(text)
    case None => Err("failed to convert " + text + " to int")
    case Some(p) => Ok(p)
  }

  predicate IsInt(x: int)
  {
    MinInt64 <= x <= MaxInt64
  }

  lemma TrimOneRight(x: string, c: char)
    requires |x| > 0 && x[|x| - 1] != c
    ensures TrimRight(x + [c], {c}) == x
  {
    assert (x + [c])[..|x|] == x;
    TrimRightStop(x, {c});
  }

  /** What `isula inspect -f '{{json .Id}}'` prints, read back. */
  lemma ContainerIDOfJson(id: string)
    requires |id| > 0 && id[0] != '"' && id[|id| - 1] != '"'
    ensures ContainerIDOf("\"" + id + "\"\n") == id
  {
    var q := "\"" + id + "\"";
    assert "\"" + id + "\"\n" == q + ['\n'];
    TrimLeftStop(q + ['\n'], {'\n'});
    TrimOneRight(q, '\n');
    assert q[1] == id[0];
    TrimLeftOne(q, {'"'});
    assert q[1..] == id + ['"'];
    TrimOneRight(id, '"');
  }

  /** What `isula inspect -f '{{json .State.Pid}}'` prints, read back. */
  lemma PidOfJson(pid: int)
    requires IsInt(pid)
    ensures PidOf(IntToString(pid) + "\n") == Ok(pid)
  {
    var t := IntToString(pid);
    assert t[0] != '\n';
    var last := t[|t| - 1];
    assert last != '\n' by {
      if pid < 0 {
        assert t[1..] == NatToString(-pid);
        assert IsDigit(t[1..][|t| - 2]);
      } else {
        assert IsDigit(t[|t| - 1]);
      }
    }
    TrimLeftStop(t + "\n", {'\n'});
    TrimOneRight(t, '\n');
    AtoiIntToString(pid);
  }

  // ---------------------------------------------------------------------
  // The container record

  datatype Container = Container(pid: int, containerID: string, containerPath: string, name: string, spec: Option<Spec>)

  /** `New`: a name outside the pattern is refused before the engine is
    * asked; a failing `isula info` is ignored (the storage directory is
    * then relative); the id and pid must be read; an unreadable
    * configuration only leaves the spec out.  `info`, `idOut`, `pidOut`
    * and `spec` are what the engine answers. */
  function New(name: string, info: Result<string>, idOut: Result<string>, pidOut: Result<string>, spec: Result<Spec>): (r: Result<Container>)
    ensures !RestrictedName(name) ==> r.Err?
    ensures r.Ok? <==> RestrictedName(name) && idOut.Ok? && pidOut.Ok? && PidOf(pidOut.value).Ok?
    ensures r.Ok? ==> r.value.name == name && r.value.containerID == ContainerIDOf(idOut.value) &&
                      r.value.pid == PidOf(pidOut.value).value &&
                      r.value.spec == (if spec.Ok? then Some(spec.value) else None)
  {
    if !RestrictedName(name) then Err("Invalid container name (" + name + "), only [a-zA-Z0-9][a-zA-Z0-9_.-] are allowed")
    else
      var graph := match GraphDriverPath(info) case Ok(p) => p case Err(_) => "";
      var storagePath := JoinPath([graph, "engines", "lcr"]);
      match idOut
      case Err(e) => Err(e)
      case Ok(out) =>
        var id := ContainerIDOf(out);
        match pidOut
        case Err(e) => Err(e)
        case Ok(pout) =>
          match PidOf(pout)
          case Err(e) => Err(e)
          case Ok(pid) =>
            Ok(Container(pid, id, JoinPath([storagePath, id]), name, if spec.Ok? then Some(spec.value) else None))
  }

  /** `NetNsPath`. */
  function NetNsPath(c: Container): string
  {
    "/proc/" + IntToString(c.pid) + "/ns/net"
  }

  /** `GetCgroupPath`: the printed cgroup parent without its newlines and
    * its enclosing characters, "/lxc" when that is empty, joined with the
    * container id. */
  function GetCgroupPath(c: Container, out: Result<string>): (r: Result<string>)
    ensures r.Err? <==> out.Err?
  {
    match out
    case Err(e) => Err(e)
    case Ok(text) =>
      var trimmed := Trim(text, {'\n'});
      var parent := if |trimmed| >= 2 then trimmed[1..|trimmed| - 1] else trimmed;
      Ok(JoinPath([if parent == "" then "/lxc" else parent, c.containerID]))
  }

  /** What `isula inspect -f '{{json .HostConfig.CgroupParent}}'` prints:
    * the parent in quotes; an empty parent means "/lxc". */
  lemma CgroupPathOfJson(c: Container, parent: string)
    requires parent == "" || parent[|parent| - 1] != '\n'
    ensures GetCgroupPath(c, Ok("\"" + parent + "\"\n")) == Ok(JoinPath([if parent == "" then "/lxc" else parent, c.containerID]))
  {
    var q := "\"" + parent + "\"";
    assert "\"" + parent + "\"\n" == q + ['\n'];
    TrimLeftStop(q + ['\n'], {'\n'});
    TrimOneRight(q, '\n');
    assert q[1..|q| - 1] == parent;
  }
}

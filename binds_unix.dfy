// Parsing the "host:container[:options]" bind argument (libdevice/binds_unix.go).
// What stat and lstat find at the host path, and whether creating it
// fails, are inputs.
module BindParse {
  import opened Wrappers
  import opened Strs
  import opened Seqs
  import opened Paths
  import opened DeviceTypes
  import opened OciSpec
  import opened UtilsHooks

  /** The mount options a user may give: the shared and slave kinds are
    * deliberately absent. */
  const MountOptionItems: set<string> := {"ro", "rw", "private", "rprivate", "rslave"}

  /** The option used when the argument has no third field. */
  const DefaultBindOption: string := "rw,rslave"

  /** A comma list of allowed items, none repeated. */
  predicate MountOptionAccepted(option: string)
  {
    var items := Split(option, ',');
    (forall i :: 0 <= i < |items| ==> items[i] in MountOptionItems) && Distinct(items)
  }

  /** `validMountOption`: each item is looked up in a table of the allowed
    * items and switched off once used. */
  method ValidMountOption(option: string) returns (ok: bool)
    ensures ok <==> MountOptionAccepted(option)
  {
    ok := UseEachOnce(Split(option, ','), MountOptionItems);
  }

  /** The loop of `validMountOption`, over any table of allowed items: every
    * item must be in the table, and none twice. */
  method UseEachOnce(items: seq<string>, allowed: set<string>) returns (ok: bool)
    ensures ok <==> (forall i :: 0 <= i < |items| ==> items[i] in allowed) && Distinct(items)
  {
    var table: map<string, bool> := map op | op in allowed :: true;
    var i := 0;
    while i < |items|
      invariant 0 <= i <= |items|
      invariant table.Keys == allowed
      invariant forall j :: 0 <= j < i ==> items[j] in allowed
      invariant Distinct(items[..i])
      invariant forall op :: op in table ==> (table[op] <==> op !in items[..i])
    {
      var op := items[i];
      assert items[..i + 1] == items[..i] + [op];
      if !(op in table && table[op]) {
        if op in allowed {
          var k :| 0 <= k < i && items[k] == op;
          assert items[k] == items[i];
        }
        return false;
      }
      DistinctSnoc(items[..i], op);
      table := table[op := false];
      i := i + 1;
    }
    assert items[..i] == items;
    return true;
  }

  /** The default and single allowed items are accepted. */
  lemma DefaultOptionAccepted()
    ensures MountOptionAccepted(DefaultBindOption) && MountOptionAccepted("ro")
  {
    DefaultAccepted();
    ReadOnlyAccepted();
  }

  lemma DefaultAccepted()
    ensures MountOptionAccepted(DefaultBindOption)
  {
    assert DefaultBindOption == "rw" + [','] + "rslave";
    assert "rw" != "rslave";
    PairAccepted("rw", "rslave");
  }

  /** Two different allowed items. */
  lemma PairAccepted(a: string, b: string)
    requires ',' !in a && ',' !in b && a != b
    requires a in MountOptionItems && b in MountOptionItems
    ensures MountOptionAccepted(a + [','] + b)
  {
    SplitTwo(a, b, ',');
  }

  lemma ReadOnlyAccepted()
    ensures MountOptionAccepted("ro")
  {
    SplitNoSep("ro", ',');
  }

  /** The empty option and the shared and slave kinds are refused. */
  lemma OptionsRefused(x: string)
    requires x == "" || x == "shared" || x == "slave" || x == "rshared"
    ensures !MountOptionAccepted(x)
  {
    ItemRefused(x);
  }

  /** A single item outside the allowed set is refused. */
  lemma ItemRefused(x: string)
    requires ',' !in x && x !in MountOptionItems
    ensures !MountOptionAccepted(x)
  {
    SplitNoSep(x, ',');
  }

  /** An allowed item given twice is refused. */
  lemma RepeatRefused()
    ensures !MountOptionAccepted("rw,rw")
  {
    assert "rw,rw" == "rw" + [','] + "rw";
    SplitPrefix("rw", "rw", ',');
    SplitNoSep("rw", ',');
    assert Split("rw,rw", ',') == ["rw", "rw"];
  }

  /** What stat finds at the host path. */
  datatype Stat = Found(isDir: bool) | Missing(msg: string) | StatFailed(msg: string)

  /** The host path as the parser sees it: whether lstat succeeded and saw
    * a symbolic link, what stat finds, and the errors of creating and
    * chowning a missing directory. */
  datatype HostView = HostView(lstatSymlink: Option<bool>, stat: Stat, mkdirErr: Option<string>, chownErr: Option<string>)

  /** `ParseBind`. */
  function ParseBind(bindstr: string, spec: Option<Spec>, create: bool, host: HostView): (r: Result<Bind>)
    ensures r.Ok? ==> IsAbs(r.value.hostPath) && IsAbs(r.value.containerPath)
    ensures r.Ok? ==> MountOptionAccepted(r.value.mountOption) && r.value.resolvPath == ""
    ensures r.Ok? && create && spec.Some? ==> (r.value.uid, r.value.gid) == OwnerIDs(spec.value)
    ensures r.Ok? && (!create || spec.None?) ==> r.value.uid == 0 && r.value.gid == 0
    ensures r.Ok? && host.stat.Found? ==> r.value.isDir == host.stat.isDir
    ensures r.Ok? && host.stat.Missing? ==> r.value.isDir == create
    ensures host.stat.StatFailed? ==> r.Err?
    ensures Count(bindstr, ':') != 1 && Count(bindstr, ':') != 2 ==> r == Err("invalid path specification: " + bindstr)
  {
    DefaultOptionAccepted();
    var arr := Split(bindstr, ':');
    if |arr| == 3 && !MountOptionAccepted(arr[2]) then Err("invalid permissions: " + arr[2])
    else if |arr| != 2 && |arr| != 3 then Err("invalid path specification: " + bindstr)
    else
      var option := if |arr| == 3 then arr[2] else DefaultBindOption;
      var src := Clean(arr[0]);
      var dst := Clean(arr[1]);
      if !IsAbs(src) || !IsAbs(dst) then
        Err("invalid path specification:" + bindstr + ", only absolute path is allowed")
      else if host.lstatSymlink == Some(true) && !host.stat.Found? then
        Err("Parsebind get symlibk source file error: " + host.stat.msg)
      else
        var bind := Bind(src, false, "", dst, option, 0, 0);
        if create then
          var ids := if spec.Some? then OwnerIDs(spec.value) else (0, 0);
          var b := bind.(uid := ids.0, gid := ids.1);
          match host.stat
          case Found(d) => Ok(b.(isDir := d))
          case StatFailed(_) => Err("invalid path specification: " + bindstr)
          case Missing(_) =>
            if spec.Some? && host.mkdirErr.Some? then Err("ParseBind mkdir error: " + host.mkdirErr.value)
            else if spec.Some? && host.chownErr.Some? then Err("ParseBind chown error: " + host.chownErr.value)
            else Ok(b.(isDir := true))
        else
          match host.stat
          case Found(d) => Ok(bind.(isDir := d))
          case Missing(_) => Ok(bind)
          case StatFailed(_) => Err("invalid path specification: " + bindstr)
  }

  /** A bind argument of three fields gives the cleaned paths of the first
    * two and keeps the third as the mount option. */
  lemma ParseBindFields(bindstr: string, spec: Option<Spec>, create: bool, host: HostView, a: string, b: string, c: string)
    requires Split(bindstr, ':') == [a, b, c]
    ensures var r := ParseBind(bindstr, spec, create, host);
            r.Ok? ==> r.value.hostPath == Clean(a) && r.value.containerPath == Clean(b) && r.value.mountOption == c
  {
  }

  /** The stored text of a bind parses back to its paths and option, given
    * clean absolute paths and an accepted option. */
  lemma BindStringRoundTrip(b: Bind, hostParts: seq<string>, ctrParts: seq<string>, d: bool)
    requires |hostParts| >= 1 && |ctrParts| >= 1
    requires forall i :: 0 <= i < |hostParts| ==> PlainName(hostParts[i]) && ':' !in hostParts[i]
    requires forall i :: 0 <= i < |ctrParts| ==> PlainName(ctrParts[i]) && ':' !in ctrParts[i]
    requires b.hostPath == "/" + Join(hostParts, '/') && b.containerPath == "/" + Join(ctrParts, '/')
    requires ':' !in b.mountOption && MountOptionAccepted(b.mountOption)
    ensures ParseBind(BindToString(b), None, false, HostView(Some(false), Found(d), None, None)) ==
            Ok(Bind(b.hostPath, d, "", b.containerPath, b.mountOption, 0, 0))
  {
    CleanOfPlain(hostParts);
    CleanOfPlain(ctrParts);
    NoSepInJoin(hostParts, '/', ':');
    NoSepInJoin(ctrParts, '/', ':');
    SplitThree(b.hostPath, b.containerPath, b.mountOption, ':');
    ParseBindPlain(BindToString(b), b.hostPath, b.containerPath, b.mountOption, d);
  }

  /** Three fields with absolute clean paths and an accepted option parse
    * without a look at the host beyond the stat. */
  lemma ParseBindPlain(bindstr: string, a: string, b: string, c: string, d: bool)
    requires Split(bindstr, ':') == [a, b, c] && MountOptionAccepted(c)
    requires IsAbs(Clean(a)) && IsAbs(Clean(b))
    ensures ParseBind(bindstr, None, false, HostView(Some(false), Found(d), None, None)) == Ok(Bind(Clean(a), d, "", Clean(b), c, 0, 0))
  {
  }

  /** Two fields take the default option. */
  lemma TwoFieldsDefault(hostPath: string, ctrPath: string, spec: Option<Spec>, create: bool, host: HostView)
    requires ':' !in hostPath && ':' !in ctrPath
    requires ParseBind(hostPath + ":" + ctrPath, spec, create, host).Ok?
    ensures ParseBind(hostPath + ":" + ctrPath, spec, create, host).value.mountOption == DefaultBindOption
    ensures ParseBind(hostPath + ":" + ctrPath, spec, create, host).value.hostPath == Clean(hostPath)
    ensures ParseBind(hostPath + ":" + ctrPath, spec, create, host).value.containerPath == Clean(ctrPath)
  {
    assert hostPath + ":" + ctrPath == hostPath + [':'] + ctrPath;
    SplitTwo(hostPath, ctrPath, ':');
    ParseBindTwoFields(hostPath + ":" + ctrPath, spec, create, host, hostPath, ctrPath);
  }

  /** A bind argument of two fields gives the cleaned paths and the
    * default mount option. */
  lemma ParseBindTwoFields(bindstr: string, spec: Option<Spec>, create: bool, host: HostView, a: string, b: string)
    requires Split(bindstr, ':') == [a, b]
    ensures var r := ParseBind(bindstr, spec, create, host);
            r.Ok? ==> r.value.hostPath == Clean(a) && r.value.containerPath == Clean(b) && r.value.mountOption == DefaultBindOption
  {
  }

  /** A third field the option check refuses is reported as such. */
  lemma BadOptionRefused(hostPath: string, ctrPath: string, option: string, spec: Option<Spec>, create: bool, host: HostView)
    requires ':' !in hostPath && ':' !in ctrPath && ':' !in option
    requires !MountOptionAccepted(option)
    ensures ParseBind(hostPath + ":" + ctrPath + ":" + option, spec, create, host) == Err("invalid permissions: " + option)
  {
    SplitThree(hostPath, ctrPath, option, ':');
  }
}

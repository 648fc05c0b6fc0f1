// Parsing the "host:container:permissions" device argument and checking
// cgroup permission letters (libdevice/devices_unix.go).
module DeviceParse {
  import opened Wrappers
  import opened Strs
  import opened Seqs
  import opened Paths
  import opened DeviceTypes

  /** The cgroup permission letters: read, write, mknod. */
  predicate ModeLetter(c: char)
  {
    c == 'r' || c == 'w' || c == 'm'
  }

  /** A device mode is a non-empty string of mode letters, none repeated. */
  predicate ValidDeviceMode(mode: string)
  {
    |mode| > 0 && (forall i :: 0 <= i < |mode| ==> ModeLetter(mode[i])) && Distinct(mode)
  }

  /** `CheckDeviceMode`: each letter is looked up in a table of the three
    * letters and switched off once used, so a repeat or any other letter
    * fails. */
  method CheckDeviceMode(mode: string) returns (ok: bool)
    ensures ok <==> ValidDeviceMode(mode)
  {
    var table: map<char, bool> := map['r' := true, 'w' := true, 'm' := true];
    if mode == "" {
      return false;
    }
    var i := 0;
    while i < |mode|
      invariant 0 <= i <= |mode|
      invariant forall j :: 0 <= j < i ==> ModeLetter(mode[j])
      invariant Distinct(mode[..i])
      invariant forall c :: (c in table && table[c]) <==> ModeLetter(c) && c !in mode[..i]
    {
      var md := mode[i];
      if !(md in table && table[md]) {
        if ModeLetter(md) {
          var k :| 0 <= k < i && mode[k] == md;
          assert mode[k] == mode[i];
        }
        return false;
      }
      assert forall j :: 0 <= j < i ==> mode[..i + 1][j] == mode[..i][j];
      table := table[md := false];
      i := i + 1;
    }
    assert mode[..i] == mode;
    return true;
  }

  /** The default mode and every reordering of it are valid; a mode holding
    * any other letter is not. */
  lemma DefaultModeValid()
    ensures ValidDeviceMode("rwm") && ValidDeviceMode("mwr") && ValidDeviceMode("r")
    ensures !ValidDeviceMode("") && !ValidDeviceMode("rr") && !ValidDeviceMode("rwx")
  {
    assert "rr"[0] == "rr"[1];
    assert !ModeLetter("rwx"[2]);
  }

  /** The device record `ParseMapping` returns: only the two paths and the
    * permissions are set, every other field keeps Go's zero value. */
  function MappingDevice(dst: string, src: string, permissions: string): Device
  {
    Device("", dst, src, 0, 0, permissions, 0, 0, 0, false, "")
  }

  /** How the fields of a device argument are read before validation: the
    * host path, the container path and the permissions. */
  datatype Fields = Fields(src: string, dst: string, permissions: string)

  /** The field assignment of `ParseMapping`: the third field, when present
    * and non-empty, is the permission; a lone second field is a permission
    * if it reads as one and the container path otherwise. */
  function SplitFields(arr: seq<string>): Fields
    requires 1 <= |arr| <= 3
  {
    if |arr| == 3 then Fields(arr[0], arr[1], if arr[2] != "" then arr[2] else "rwm")
    else if |arr| == 2 then
      if ValidDeviceMode(arr[1]) then Fields(arr[0], "", arr[1]) else Fields(arr[0], arr[1], "rwm")
    else Fields(arr[0], "", "rwm")
  }

  /** `ParseMapping`: a device argument to the device it names. */
  function ParseMapping(device: string): (r: Result<Device>)
    ensures Count(device, ':') > 2 ==> r == Err("invalid device specification: " + device)
    ensures r.Ok? ==> ValidDeviceMode(r.value.permissions)
    ensures r.Ok? ==> r.value.path != "" || r.value.pathOnHost != ""
    ensures r.Ok? ==> (r.value.path == "" || IsAbs(r.value.path)) &&
                      (r.value.pathOnHost == "" || IsAbs(r.value.pathOnHost))
  {
    var arr := Split(device, ':');
    if |arr| < 1 || |arr| > 3 then Err("invalid device specification: " + device)
    else
      var f := SplitFields(arr);
      if !ValidDeviceMode(f.permissions) then Err("invalid permission: " + f.permissions)
      else if f.src != "" && !IsAbs(f.src) then Err("hostpath should be an absolute path: " + f.src)
      else if f.dst != "" && !IsAbs(f.dst) then Err("containerpath should be an absolute path: " + f.dst)
      else
        var src := if f.src != "" then Clean(f.src) else "";
        var dst := if f.dst != "" then Clean(f.dst) else "";
        if src == "" && dst == "" then Err("either of host path and container path should be assigned")
        else Ok(MappingDevice(dst, src, f.permissions))
  }

  /** A successful parse keeps the accepted permission text and sets the
    * paths to the cleaned fields; nothing else is set. */
  lemma ParseMappingResult(device: string)
    requires ParseMapping(device).Ok?
    ensures var f := SplitFields(Split(device, ':'));
            var d := ParseMapping(device).value;
            d == MappingDevice(d.path, d.pathOnHost, f.permissions) &&
            d.pathOnHost == (if f.src == "" then "" else Clean(f.src)) &&
            d.path == (if f.dst == "" then "" else Clean(f.dst))
  {
  }

  /** A lone host path gets the default permissions and no container path. */
  lemma ParseHostOnly(p: string)
    requires IsAbs(p) && ':' !in p
    ensures ParseMapping(p) == Ok(MappingDevice("", Clean(p), "rwm"))
  {
    SplitNoSep(p, ':');
    DefaultModeValid();
    assert SplitFields([p]) == Fields(p, "", "rwm");
  }

  /** With two fields the second is a permission exactly when it reads as
    * one; otherwise it is the container path and the default applies. */
  lemma ParseTwoFields(host: string, second: string)
    requires IsAbs(host) && ':' !in host && ':' !in second
    ensures ValidDeviceMode(second) ==>
              ParseMapping(host + ":" + second) == Ok(MappingDevice("", Clean(host), second))
    ensures !ValidDeviceMode(second) && IsAbs(second) ==>
              ParseMapping(host + ":" + second) == Ok(MappingDevice(Clean(second), Clean(host), "rwm"))
    ensures !ValidDeviceMode(second) && second != "" && !IsAbs(second) ==>
              ParseMapping(host + ":" + second) == Err("containerpath should be an absolute path: " + second)
  {
    SplitTwo(host, second, ':');
    DefaultModeValid();
  }

  /** With three fields an empty permission field falls back to "rwm" and
    * the second field is the container path. */
  lemma ParseThreeFields(host: string, ctr: string, perm: string)
    requires IsAbs(host) && IsAbs(ctr) && ':' !in host && ':' !in ctr && ':' !in perm
    ensures perm == "" ==>
              ParseMapping(host + ":" + ctr + ":" + perm) == Ok(MappingDevice(Clean(ctr), Clean(host), "rwm"))
    ensures perm != "" && ValidDeviceMode(perm) ==>
              ParseMapping(host + ":" + ctr + ":" + perm) == Ok(MappingDevice(Clean(ctr), Clean(host), perm))
    ensures perm != "" && !ValidDeviceMode(perm) ==>
              ParseMapping(host + ":" + ctr + ":" + perm) == Err("invalid permission: " + perm)
  {
    SplitThree(host, ctr, perm, ':');
    DefaultModeValid();
  }

  /** An argument with neither path is refused. */
  lemma ParseNoPaths(perm: string)
    requires ':' !in perm && ValidDeviceMode(perm)
    ensures ParseMapping(":" + perm) == Err("either of host path and container path should be assigned")
    ensures ParseMapping("::") == Err("either of host path and container path should be assigned")
  {
    NoPathsWithPermission(perm);
    NoPathsAtAll();
  }

  lemma NoPathsWithPermission(perm: string)
    requires ':' !in perm && ValidDeviceMode(perm)
    ensures ParseMapping(":" + perm) == Err("either of host path and container path should be assigned")
  {
    assert ":" + perm == "" + [':'] + perm;
    SplitTwo("", perm, ':');
  }

  lemma NoPathsAtAll()
    ensures ParseMapping("::") == Err("either of host path and container path should be assigned")
  {
    assert "::" == "" + [':'] + "" + [':'] + "";
    SplitThree("", "", "", ':');
    DefaultModeValid();
  }

  /** The stored device text parses back to the device's paths and
    * permissions when both paths are clean absolute paths. */
  lemma DeviceStringRoundTrip(d: Device, hostParts: seq<string>, ctrParts: seq<string>)
    requires |hostParts| >= 1 && |ctrParts| >= 1
    requires forall i :: 0 <= i < |hostParts| ==> PlainName(hostParts[i]) && ':' !in hostParts[i]
    requires forall i :: 0 <= i < |ctrParts| ==> PlainName(ctrParts[i]) && ':' !in ctrParts[i]
    requires d.pathOnHost == "/" + Join(hostParts, '/') && d.path == "/" + Join(ctrParts, '/')
    requires ValidDeviceMode(d.permissions)
    ensures ParseMapping(DeviceString(d)) == Ok(MappingDevice(d.path, d.pathOnHost, d.permissions))
  {
    CleanOfPlain(hostParts);
    CleanOfPlain(ctrParts);
    NoSepInJoin(hostParts, '/', ':');
    NoSepInJoin(ctrParts, '/', ':');
    assert ':' !in d.permissions by {
      forall i | 0 <= i < |d.permissions| ensures d.permissions[i] != ':' {
        assert ModeLetter(d.permissions[i]);
      }
    }
    ParseThreeFields(d.pathOnHost, d.path, d.permissions);
  }

  /** `ParseDevice`: the argument as `ParseMapping` reads it, then the node
    * at its host path as `fromPath` (`DeviceFromPath`: type, numbers, mode
    * and owner of the node the path resolves to) describes it, given the
    * container path of the argument. */
  function ParseDevice(device: string, fromPath: (string, string) -> Result<Device>): (r: Result<Device>)
    ensures ParseMapping(device).Err? ==> r == Err(ParseMapping(device).msg)
    ensures r.Ok? ==> ParseMapping(device).Ok? &&
                      var m := ParseMapping(device).value;
                      fromPath(m.pathOnHost, m.permissions).Ok? &&
                      r.value == fromPath(m.pathOnHost, m.permissions).value.(path := m.path)
  {
    match ParseMapping(device)
    case Err(e) => Err(e)
    case Ok(m) =>
      match fromPath(m.pathOnHost, m.permissions)
      case Err(e) => Err(e)
      case Ok(d) => Ok(d.(path := m.path))
  }

  /** `GetDeviceNum`: the major and minor numbers of the node at a path. */
  function GetDeviceNum(path: string, fromPath: (string, string) -> Result<Device>): (r: Result<(int, int)>)
    ensures r.Ok? <==> fromPath(path, "").Ok?
    ensures r.Ok? ==> r.value == (fromPath(path, "").value.major, fromPath(path, "").value.minor)
  {
    match fromPath(path, "")
    case Err(e) => Err(e)
    case Ok(d) => Ok((d.major, d.minor))
  }

  /** `SetDefaultPath`: an empty path is filled from the other one. */
  function SetDefaultPath(d: Device): (r: Device)
    ensures r.path == (if d.path == "" then d.pathOnHost else d.path)
    ensures r.pathOnHost == (if d.pathOnHost == "" then r.path else d.pathOnHost)
    ensures r == d.(path := r.path, pathOnHost := r.pathOnHost)
  {
    var d1 := if d.path == "" then d.(path := d.pathOnHost) else d;
    if d1.pathOnHost == "" then d1.(pathOnHost := d1.path) else d1
  }

  /** Defaulting is idempotent, never touches a non-empty path, and leaves
    * both paths set when either was. */
  lemma SetDefaultPathFacts(d: Device)
    ensures SetDefaultPath(SetDefaultPath(d)) == SetDefaultPath(d)
    ensures d.path != "" ==> SetDefaultPath(d).path == d.path
    ensures d.pathOnHost != "" ==> SetDefaultPath(d).pathOnHost == d.pathOnHost
    ensures d.path != "" || d.pathOnHost != "" ==>
              SetDefaultPath(d).path != "" && SetDefaultPath(d).pathOnHost != ""
  {
  }
}

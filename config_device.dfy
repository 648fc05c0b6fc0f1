// The searches and list edits behind the device, bind and QoS parts of the
// hook configuration (config/config_device.go), as functions over the stored
// lists.  The class in config_store.dfy applies them to its fields.
module ConfigDevice {
  import opened Wrappers
  import opened Seqs
  import opened DeviceTypes
  import opened BindIndex

  /** `MaxPathNum`: the cap on stored binds checked before adding paths. */
  const MaxPathNum := 128

  /** One stored device: the device record without mode, owner and the
    * allow flag. */
  datatype DeviceMapping = DeviceMapping(
    typ: string,
    minor: int,
    major: int,
    pathOnHost: string,
    pathInContainer: string,
    cgroupPermissions: string,
    parent: string)

  /** The five QoS lists of the store. */
  datatype QosType = ReadIOPS | WriteIOPS | ReadBps | WriteBps | BlkioWeight

  /** The stored entry `UpdateDevice` builds from a device. */
  function ToMapping(d: Device): DeviceMapping
  {
    DeviceMapping(d.typ, d.minor, d.major, d.pathOnHost, d.path, d.permissions, d.parent)
  }

  /** The device record `FindDeviceByMapping` and `FindSubPartition` hand back
    * for a stored entry (mode, owner and allow flag left zero). */
  function ToDevice(m: DeviceMapping): Device
  {
    Device(m.typ, m.pathInContainer, m.pathOnHost, m.major, m.minor, m.cgroupPermissions, 0, 0, 0, false, m.parent)
  }

  /** Storing a device and reading it back gives the stored entry unchanged. */
  lemma ToDeviceRoundTrip(m: DeviceMapping)
    ensures ToMapping(ToDevice(m)) == m
  {
  }

  /** ... and keeps every field the store records. */
  lemma ToMappingRoundTrip(d: Device)
    ensures var e := ToDevice(ToMapping(d));
            e.typ == d.typ && e.path == d.path && e.pathOnHost == d.pathOnHost &&
            e.major == d.major && e.minor == d.minor && e.permissions == d.permissions && e.parent == d.parent
  {
  }

  // ---------------------------------------------------------------------
  // Device searches

  /** The match of `DeviceIndexInArray`: an empty host path or an empty
    * container path in the query is a wildcard for that side. */
  predicate QueryMatches(q: Device, m: DeviceMapping)
  {
    (q.pathOnHost == "" && m.pathInContainer == q.path) ||
    (q.path == "" && m.pathOnHost == q.pathOnHost) ||
    (m.pathInContainer == q.path && m.pathOnHost == q.pathOnHost)
  }

  /** `DeviceIndexInArray`: the first stored entry the query matches. */
  function DeviceIndexInArray(devs: seq<DeviceMapping>, q: Device): (r: Option<nat>)
    ensures r.None? <==> forall i :: 0 <= i < |devs| ==> !QueryMatches(q, devs[i])
    ensures r.Some? ==> r.value < |devs| && QueryMatches(q, devs[r.value]) &&
                        forall j :: 0 <= j < r.value ==> !QueryMatches(q, devs[j])
  {
    FirstIndex(devs, m => QueryMatches(q, m))
  }

  /** A query with an empty host path finds any entry by its container path,
    * one with an empty container path any entry by its host path. */
  lemma QueryWildcards(q: Device, m: DeviceMapping)
    ensures q.pathOnHost == "" ==> (QueryMatches(q, m) <==> m.pathInContainer == q.path || (q.path == "" && m.pathOnHost == ""))
    ensures q.path == "" ==> (QueryMatches(q, m) <==> m.pathOnHost == q.pathOnHost || (q.pathOnHost == "" && m.pathInContainer == ""))
    ensures q.pathOnHost != "" && q.path != "" ==>
              (QueryMatches(q, m) <==> m.pathInContainer == q.path && m.pathOnHost == q.pathOnHost)
  {
  }

  /** The clash `getConflictIndex` looks for: the same container path or the
    * same host path. */
  predicate Conflicts(m: DeviceMapping, d: Device)
  {
    m.pathInContainer == d.path || m.pathOnHost == d.pathOnHost
  }

  /** `getConflictIndex`: the first stored entry sharing a path with `d`. */
  function ConflictIndex(devs: seq<DeviceMapping>, d: Device): (r: Option<nat>)
    ensures r.None? <==> forall i :: 0 <= i < |devs| ==> !Conflicts(devs[i], d)
    ensures r.Some? ==> r.value < |devs| && Conflicts(devs[r.value], d) &&
                        forall j :: 0 <= j < r.value ==> !Conflicts(devs[j], d)
  {
    FirstIndex(devs, m => Conflicts(m, d))
  }

  /** The exact match of `FindDeviceByMapping`. */
  predicate SameMapping(m: DeviceMapping, d: Device)
  {
    m.pathOnHost == d.pathOnHost && m.pathInContainer == d.path
  }

  /** `FindDeviceByMapping`: the first stored entry with both paths of `d`,
    * as a device record. */
  function FindDeviceByMapping(devs: seq<DeviceMapping>, d: Device): (r: Option<Device>)
    ensures r.None? <==> forall i :: 0 <= i < |devs| ==> !SameMapping(devs[i], d)
    ensures r.Some? ==> exists i :: 0 <= i < |devs| && SameMapping(devs[i], d) && r.value == ToDevice(devs[i])
  {
    match FirstIndex(devs, m => SameMapping(m, d))
    case None => None
    case Some(i) => Some(ToDevice(devs[i]))
  }

  /** `FindSubPartition`: every stored entry whose parent disk is `d`, in
    * stored order. */
  function FindSubPartition(devs: seq<DeviceMapping>, d: Device): (r: seq<Device>)
    ensures |r| <= |devs|
    ensures forall i :: 0 <= i < |r| ==> exists m :: m in devs && m.parent == d.pathOnHost && r[i] == ToDevice(m)
    ensures forall m :: m in devs && m.parent == d.pathOnHost ==> ToDevice(m) in r
  {
    var subs := Filter(devs, ChildOf(d));
    var r := Map(subs, ToDevice);
    assert forall i :: 0 <= i < |r| ==> r[i] == ToDevice(subs[i]);
    r
  }

  /** The test for the partitions of disk `d`. */
  function ChildOf(d: Device): DeviceMapping -> bool
  {
    (m: DeviceMapping) => m.parent == d.pathOnHost
  }

  /** Storing one more entry adds its partition, if it is one of `d`, at the
    * end of the answer: the answer keeps the stored order and lists an
    * entry once per time it is stored. */
  lemma FindSubPartitionSnoc(devs: seq<DeviceMapping>, m: DeviceMapping, d: Device)
    ensures FindSubPartition(devs + [m], d) ==
            FindSubPartition(devs, d) + (if m.parent == d.pathOnHost then [ToDevice(m)] else [])
  {
    var p := ChildOf(d);
    FilterAppend(devs, [m], p);
    assert Filter([m], p) == (if p(m) then [m] else []) by {
      assert [m][1..] == [];
    }
    if p(m) {
      MapSnoc(Filter(devs, p), m, ToDevice);
    } else {
      assert Filter(devs, p) + [] == Filter(devs, p);
    }
  }

  // ---------------------------------------------------------------------
  // Adding and removing a device

  /** `UpdateDevice`: the new device list, or the error with the list left
    * as it was.  Success always marks the store dirty. */
  function UpdateDevice(devs: seq<DeviceMapping>, d: Device, isAdd: bool): (r: Result<seq<DeviceMapping>>)
    ensures isAdd ==> (r.Ok? <==> forall i :: 0 <= i < |devs| ==> !Conflicts(devs[i], d))
    ensures isAdd && r.Ok? ==> r.value == devs + [ToMapping(d)]
    ensures !isAdd ==> (r.Ok? <==> exists i :: 0 <= i < |devs| && QueryMatches(d, devs[i]))
    ensures !isAdd && r.Ok? ==>
              |r.value| == |devs| - 1 &&
              exists i :: 0 <= i < |devs| && QueryMatches(d, devs[i]) && r.value == RemoveAt(devs, i) &&
                          forall j :: 0 <= j < i ==> !QueryMatches(d, devs[j])
  {
    if isAdd then
      match ConflictIndex(devs, d)
      case Some(i) =>
        Err("device " + devs[i].pathOnHost + ":" + devs[i].pathInContainer + " has been already added into container")
      case None => Ok(devs + [ToMapping(d)])
    else
      match DeviceIndexInArray(devs, d)
      case Some(i) => Ok(RemoveAt(devs, i))
      case None => Err("device " + d.pathOnHost + ":" + d.path + " has not been added into container")
  }

  /** No two stored devices share a host path or a container path. */
  predicate DistinctDevices(devs: seq<DeviceMapping>)
  {
    forall i, j :: 0 <= i < j < |devs| ==>
      devs[i].pathOnHost != devs[j].pathOnHost && devs[i].pathInContainer != devs[j].pathInContainer
  }

  /** Because adding refuses any shared path, the store never holds two
    * devices with the same host path or the same container path. */
  lemma UpdateDeviceKeepsDistinct(devs: seq<DeviceMapping>, d: Device, isAdd: bool)
    requires DistinctDevices(devs)
    ensures UpdateDevice(devs, d, isAdd).Ok? ==> DistinctDevices(UpdateDevice(devs, d, isAdd).value)
  {
    var r := UpdateDevice(devs, d, isAdd);
    if r.Ok? && isAdd {
      var n := r.value;
      forall i, j | 0 <= i < j < |n|
        ensures n[i].pathOnHost != n[j].pathOnHost && n[i].pathInContainer != n[j].pathInContainer
      {
        if j == |devs| {
          assert !Conflicts(devs[i], d);
        }
      }
    }
  }

  /** A device just added is found again by its two paths. */
  lemma AddThenFind(devs: seq<DeviceMapping>, d: Device)
    requires UpdateDevice(devs, d, true).Ok?
    ensures FindDeviceByMapping(UpdateDevice(devs, d, true).value, d) == Some(ToDevice(ToMapping(d)))
  {
    var n := UpdateDevice(devs, d, true).value;
    assert forall i :: 0 <= i < |devs| ==> !SameMapping(n[i], d) by {
      assert forall i :: 0 <= i < |devs| ==> n[i] == devs[i] && !Conflicts(devs[i], d);
    }
    assert SameMapping(n[|devs|], d);
  }

  /** In a store without shared paths, a device removed by its two paths is
    * no longer found. */
  lemma RemoveThenNotFound(devs: seq<DeviceMapping>, d: Device)
    requires DistinctDevices(devs) && d.pathOnHost != "" && d.path != ""
    requires UpdateDevice(devs, d, false).Ok?
    ensures FindDeviceByMapping(UpdateDevice(devs, d, false).value, d).None?
  {
    var n := UpdateDevice(devs, d, false).value;
    var i :| 0 <= i < |devs| && QueryMatches(d, devs[i]) && n == RemoveAt(devs, i);
    forall k | 0 <= k < |n|
      ensures !SameMapping(n[k], d)
    {
      if k < i {
        assert n[k] == devs[k];
      } else {
        assert n[k] == devs[k + 1];
      }
    }
  }

  // ---------------------------------------------------------------------
  // Binds

  /** The match of `bindIndexInArray`: a stored string that parses, with the
    * bind's host and container path. */
  predicate BindMatches(b: Bind, s: string)
  {
    ParseMapping(s).Ok? &&
    ParseMapping(s).value.pathInContainer == b.containerPath &&
    ParseMapping(s).value.pathOnHost == b.hostPath
  }

  /** `bindIndexInArray`: the first stored bind string for `b`'s paths;
    * strings that do not parse are skipped. */
  function BindIndexInArray(binds: seq<string>, b: Bind): (r: Option<nat>)
    ensures r.None? <==> forall i :: 0 <= i < |binds| ==> !BindMatches(b, binds[i])
    ensures r.Some? ==> r.value < |binds| && BindMatches(b, binds[r.value]) &&
                        forall j :: 0 <= j < r.value ==> !BindMatches(b, binds[j])
  {
    FirstIndex(binds, MatchesBind(b))
  }

  function MatchesBind(b: Bind): string -> bool
  {
    s => BindMatches(b, s)
  }

  /** `IsBindInConfig`. */
  function IsBindInConfig(binds: seq<string>, b: Bind): (r: bool)
    ensures r <==> exists i :: 0 <= i < |binds| && BindMatches(b, binds[i])
  {
    BindIndexInArray(binds, b).Some?
  }

  /** `GetBindInConfig`: the parsed stored bind for `b`'s two paths, whose
    * permission field is the stored mount option. */
  function GetBindInConfig(binds: seq<string>, b: Bind): (r: Result<HostMapping>)
    ensures r.Ok? <==> IsBindInConfig(binds, b)
    ensures r.Ok? ==> r.value.pathOnHost == b.hostPath && r.value.pathInContainer == b.containerPath &&
                      exists i :: 0 <= i < |binds| && ParseMapping(binds[i]) == r
  {
    match BindIndexInArray(binds, b)
    case Some(i) => ParseMapping(binds[i])
    case None => Err("fail to find bind: " + BindVerbose(b))
  }

  /** `CheckPathNum`: an error only once more than 128 binds are stored. */
  function CheckPathNum(binds: seq<string>): (r: Option<string>)
    ensures r.Some? <==> |binds| > MaxPathNum
  {
    if |binds| > MaxPathNum then Some("Path already reach max limit") else None
  }

  // ---------------------------------------------------------------------
  // QoS lists

  /** A list after an edit, and whether the edit marks the store dirty. */
  datatype Edit<T> = Edit(list: seq<T>, changed: bool)

  predicate SameNumbers(q: Qos, major: int, minor: int)
  {
    q.major == major && q.minor == minor
  }

  /** The test for entries of one device number. */
  function ForDevice(major: int, minor: int): Qos -> bool
  {
    q => SameNumbers(q, major, minor)
  }

  /** The entries for other device numbers, in order. */
  function Others(l: seq<Qos>, major: int, minor: int): seq<Qos>
    decreases |l|
  {
    if |l| == 0 then []
    else Others(l[..|l| - 1], major, minor) +
         (if SameNumbers(l[|l| - 1], major, minor) then [] else [l[|l| - 1]])
  }

  /** The value recorded for a device number: that of its first entry. */
  function Lookup(l: seq<Qos>, major: int, minor: int): Option<string>
  {
    match FirstIndex(l, ForDevice(major, minor))
    case None => None
    case Some(i) => Some(l[i].value)
  }

  /** The `update` closure of `UpdateDeviceQos`: overwrite the value of the
    * first entry with the same device numbers, or append the entry. */
  function QosUpsert(l: seq<Qos>, q: Qos): (r: Edit<Qos>)
    ensures r.changed <==> Lookup(l, q.major, q.minor) != Some(q.value)
    ensures !r.changed ==> r.list == l
    ensures Lookup(l, q.major, q.minor).None? ==> r.list == l + [q]
  {
    match FirstIndex(l, ForDevice(q.major, q.minor))
    case None => Edit(l + [q], true)
    case Some(i) =>
      if l[i].value != q.value then Edit(l[i := l[i].(value := q.value)], true)
      else Edit(l, false)
  }

  /** The `remove` closure of `RemoveDeviceQos`: drop the first entry with
    * the device numbers and report whether there was one. */
  function QosRemove(l: seq<Qos>, major: int, minor: int): (r: Edit<Qos>)
    ensures r.changed <==> Lookup(l, major, minor).Some?
    ensures !r.changed ==> r.list == l
    ensures r.changed ==> |r.list| == |l| - 1
  {
    match FirstIndex(l, ForDevice(major, minor))
    case None => Edit(l, false)
    case Some(i) => Edit(RemoveAt(l, i), true)
  }

  lemma {:induction false} OthersConcat(a: seq<Qos>, b: seq<Qos>, major: int, minor: int)
    ensures Others(a + b, major, minor) == Others(a, major, minor) + Others(b, major, minor)
    decreases |b|
  {
    if |b| == 0 {
      assert a + b == a;
    } else {
      assert (a + b)[..|a + b| - 1] == a + b[..|b| - 1];
      OthersConcat(a, b[..|b| - 1], major, minor);
    }
  }

  /** Rewriting or deleting an entry for the device numbers leaves the
    * entries of the other numbers as they were. */
  lemma OthersAround(l: seq<Qos>, i: nat, x: Qos, major: int, minor: int)
    requires i < |l| && SameNumbers(l[i], major, minor) && SameNumbers(x, major, minor)
    ensures Others(l[i := x], major, minor) == Others(l, major, minor)
    ensures Others(RemoveAt(l, i), major, minor) == Others(l, major, minor)
  {
    assert l == l[..i] + [l[i]] + l[i + 1..];
    assert l[i := x] == l[..i] + [x] + l[i + 1..];
    OthersConcat(l[..i] + [l[i]], l[i + 1..], major, minor);
    OthersConcat(l[..i], [l[i]], major, minor);
    OthersConcat(l[..i] + [x], l[i + 1..], major, minor);
    OthersConcat(l[..i], [x], major, minor);
    OthersConcat(l[..i], l[i + 1..], major, minor);
    assert [l[i]][..0] == [] && [x][..0] == [];
  }

  /** For a device already listed, the upsert rewrites the value of its first
    * entry in place: same length, same position, every other entry as it
    * was. */
  lemma UpsertInPlace(l: seq<Qos>, q: Qos, i: nat)
    requires i < |l| && SameNumbers(l[i], q.major, q.minor)
    requires forall j :: 0 <= j < i ==> !SameNumbers(l[j], q.major, q.minor)
    ensures QosUpsert(l, q).list == l[i := l[i].(value := q.value)]
  {
    var p := ForDevice(q.major, q.minor);
    assert p(l[i]) && forall j :: 0 <= j < i ==> !p(l[j]);
    assert FirstIndex(l, p) == Some(i);
    if l[i].value == q.value {
      assert l[i := l[i].(value := q.value)] == l;
    }
  }

  /** After an upsert the device's value is the new one and every other
    * device's entries are untouched. */
  lemma UpsertThenLookup(l: seq<Qos>, q: Qos)
    ensures Lookup(QosUpsert(l, q).list, q.major, q.minor) == Some(q.value)
    ensures Others(QosUpsert(l, q).list, q.major, q.minor) == Others(l, q.major, q.minor)
  {
    var p := ForDevice(q.major, q.minor);
    var r := QosUpsert(l, q).list;
    match FirstIndex(l, p)
    case None =>
      assert FirstIndex(r, p) == Some(|l|) by {
        assert forall j :: 0 <= j < |l| ==> r[j] == l[j] && !p(r[j]);
        assert p(r[|l|]);
      }
      OthersConcat(l, [q], q.major, q.minor);
      assert [q][..0] == [];
    case Some(i) =>
      var x := l[i].(value := q.value);
      if l[i].value != q.value {
        assert FirstIndex(r, p) == Some(i) by {
          assert forall j :: 0 <= j < i ==> r[j] == l[j] && !p(r[j]);
          assert r[i] == x && p(x);
        }
      }
      OthersAround(l, i, x, q.major, q.minor);
  }

  /** Removal deletes exactly one entry of the device and nothing else. */
  lemma RemoveKeepsOthers(l: seq<Qos>, major: int, minor: int)
    ensures Others(QosRemove(l, major, minor).list, major, minor) == Others(l, major, minor)
  {
    match FirstIndex(l, ForDevice(major, minor))
    case None =>
    case Some(i) => OthersAround(l, i, l[i], major, minor);
  }

  // ---------------------------------------------------------------------
  // New device numbers for a host path

  /** The entry with its numbers replaced when it is for the host path. */
  function RenumberDevice(m: DeviceMapping, path: string, major: int, minor: int): DeviceMapping
  {
    if m.pathOnHost == path then m.(major := major, minor := minor) else m
  }

  function RenumberQos(q: Qos, path: string, major: int, minor: int): Qos
  {
    if q.path == path then q.(major := major, minor := minor) else q
  }

  /** The device list `UpdateDeviceNode` leaves behind. */
  function RenumberedDevices(devs: seq<DeviceMapping>, path: string, major: int, minor: int): seq<DeviceMapping>
  {
    Map(devs, m => RenumberDevice(m, path, major, minor))
  }

  /** A QoS list `UpdateDeviceNode` leaves behind. */
  function RenumberedQos(l: seq<Qos>, path: string, major: int, minor: int): seq<Qos>
  {
    Map(l, q => RenumberQos(q, path, major, minor))
  }

  /** Every entry for the host path carries the new numbers with its other
    * fields kept; other entries are unchanged; a second pass changes
    * nothing. */
  lemma RenumberedFacts(devs: seq<DeviceMapping>, l: seq<Qos>, path: string, major: int, minor: int)
    ensures var r := RenumberedDevices(devs, path, major, minor);
            |r| == |devs| &&
            (forall i :: 0 <= i < |devs| && devs[i].pathOnHost == path ==> r[i] == devs[i].(major := major, minor := minor)) &&
            (forall i :: 0 <= i < |devs| && devs[i].pathOnHost != path ==> r[i] == devs[i]) &&
            RenumberedDevices(r, path, major, minor) == r
    ensures var r := RenumberedQos(l, path, major, minor);
            |r| == |l| &&
            (forall i :: 0 <= i < |l| && l[i].path == path ==> r[i] == l[i].(major := major, minor := minor)) &&
            (forall i :: 0 <= i < |l| && l[i].path != path ==> r[i] == l[i]) &&
            RenumberedQos(r, path, major, minor) == r
  {
  }

  /** Some device entry is for the host path. */
  predicate AnyDeviceOn(devs: seq<DeviceMapping>, path: string)
  {
    exists i :: 0 <= i < |devs| && devs[i].pathOnHost == path
  }

  /** Some QoS entry is for the host path. */
  predicate AnyQosOn(l: seq<Qos>, path: string)
  {
    exists i :: 0 <= i < |l| && l[i].path == path
  }

  /** The device loop of `UpdateDeviceNode`, rewriting matching entries one
    * by one; the flag says whether any entry was for the host path. */
  method RenumberDeviceList(devs: seq<DeviceMapping>, path: string, major: int, minor: int)
      returns (r: seq<DeviceMapping>, hit: bool)
    ensures r == RenumberedDevices(devs, path, major, minor)
    ensures hit <==> AnyDeviceOn(devs, path)
  {
    r := devs;
    hit := false;
    var i := 0;
    while i < |r|
      invariant 0 <= i <= |r| == |devs|
      invariant forall k :: 0 <= k < i ==> r[k] == RenumberDevice(devs[k], path, major, minor)
      invariant forall k :: i <= k < |r| ==> r[k] == devs[k]
      invariant hit <==> exists k :: 0 <= k < i && devs[k].pathOnHost == path
    {
      if r[i].pathOnHost == path {
        r := r[i := r[i].(major := major, minor := minor)];
        hit := true;
      }
      i := i + 1;
    }
  }

  /** One QoS loop of `UpdateDeviceNode`. */
  method RenumberQosList(l: seq<Qos>, path: string, major: int, minor: int)
      returns (r: seq<Qos>, hit: bool)
    ensures r == RenumberedQos(l, path, major, minor)
    ensures hit <==> AnyQosOn(l, path)
  {
    r := l;
    hit := false;
    var i := 0;
    while i < |r|
      invariant 0 <= i <= |r| == |l|
      invariant forall k :: 0 <= k < i ==> r[k] == RenumberQos(l[k], path, major, minor)
      invariant forall k :: i <= k < |r| ==> r[k] == l[k]
      invariant hit <==> exists k :: 0 <= k < i && l[k].path == path
    {
      if r[i].path == path {
        r := r[i := r[i].(major := major, minor := minor)];
        hit := true;
      }
      i := i + 1;
    }
  }
}

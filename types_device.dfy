// The device, bind and QoS records shared by the whole tool set, and the
// text forms they are stored and written in (types/device.go).
module DeviceTypes {
  import opened Wrappers
  import opened Strs

  /** A device number of -1 stands for "any" in cgroup rules. */
  const Wildcard: int := -1

  /** A device to add to or remove from a container.  `major`/`minor` are
    * Go int64 values; `uid`/`gid`/`fileMode` are Go uint32 values. */
  datatype Device = Device(
    typ: string,          // "c" or "b"
    path: string,         // path in the container
    pathOnHost: string,
    major: int,
    minor: int,
    permissions: string,
    fileMode: int,
    uid: int,
    gid: int,
    allow: bool,
    parent: string)       // host path of the whole disk of a partition

  /** A host directory or file bind-mounted into a container. */
  datatype Bind = Bind(
    hostPath: string,
    isDir: bool,
    resolvPath: string,   // where the transfer mount appears in the container
    containerPath: string,
    mountOption: string,
    uid: int,
    gid: int)

  /** One blkio throttle or weight entry. */
  datatype Qos = Qos(major: int, minor: int, path: string, value: string)

  datatype AddDeviceOptions = AddDeviceOptions(
    readBps: seq<Qos>,
    writeBps: seq<Qos>,
    readIOPS: seq<Qos>,
    writeIOPS: seq<Qos>,
    blkioWeight: seq<Qos>,
    force: bool,
    updateConfigOnly: bool)

  predicate IsInt64(x: int)
  {
    MinInt64 <= x <= MaxInt64
  }

  /** The stored form of a bind: "host:container:option". */
  function BindToString(b: Bind): string
  {
    b.hostPath + ":" + b.containerPath + ":" + b.mountOption
  }

  /** `%v` of a `*types.Bind`, which has no `String` method: "&{" and the
    * fields in declaration order, separated by spaces, then "}". */
  function BindVerbose(b: Bind): string
  {
    "&{" + b.hostPath + " " + (if b.isDir then "true" else "false") + " " + b.resolvPath + " " +
    b.containerPath + " " + b.mountOption + " " + IntToString(b.uid) + " " + IntToString(b.gid) + "}"
  }

  /** The stored form of a device: "pathOnHost:path:permissions". */
  function DeviceString(d: Device): string
  {
    d.pathOnHost + ":" + d.path + ":" + d.permissions
  }

  /** A device number as cgroup rules write it: "*" for the wildcard, the
    * decimal number otherwise; the decimal text reads back as the number. */
  function DeviceNumberString(n: int): (r: string)
    requires IsInt64(n)
    ensures r == "*" <==> n == Wildcard
    ensures n != Wildcard ==> Atoi(r) == Some(n)
    ensures ' ' !in r && ':' !in r
  {
    if n == Wildcard then "*"
    else
      AtoiIntToString(n);
      IntToStringPlain(n);
      IntToString(n)
  }

  /** Decimal text contains only digits and a leading minus sign. */
  lemma IntToStringPlain(n: int)
    ensures ' ' !in IntToString(n) && ':' !in IntToString(n) && '*' !in IntToString(n)
  {
    var r := IntToString(n);
    if n < 0 {
      assert forall i :: 1 <= i < |r| ==> r[i] == NatToString(-n)[i - 1];
    }
  }

  /** The line written to devices.allow / devices.deny. */
  function CgroupString(d: Device): string
    requires IsInt64(d.major) && IsInt64(d.minor)
  {
    d.typ + " " + DeviceNumberString(d.major) + ":" + DeviceNumberString(d.minor) + " " + d.permissions
  }

  /** The cgroup line splits back into the type, the two device numbers
    * (each "*" or decimal) and the permissions. */
  lemma CgroupStringFields(d: Device)
    requires IsInt64(d.major) && IsInt64(d.minor)
    requires ' ' !in d.typ && ' ' !in d.permissions
    ensures Split(CgroupString(d), ' ') ==
            [d.typ, DeviceNumberString(d.major) + ":" + DeviceNumberString(d.minor), d.permissions]
    ensures Split(DeviceNumberString(d.major) + ":" + DeviceNumberString(d.minor), ':') ==
            [DeviceNumberString(d.major), DeviceNumberString(d.minor)]
  {
    var a, b := DeviceNumberString(d.major), DeviceNumberString(d.minor);
    var mid := a + ":" + b;
    assert mid == a + [':'] + b;
    assert ' ' !in mid;
    assert CgroupString(d) == d.typ + [' '] + mid + [' '] + d.permissions;
    SplitThree(d.typ, mid, d.permissions, ' ');
    SplitTwo(a, b, ':');
  }

  /** The two's-complement bit pattern of a Go int64. */
  function ToBits(x: int): bv64
    requires IsInt64(x)
  {
    if x >= 0 then x as bv64 else (x + 0x1_0000_0000_0000_0000) as bv64
  }

  /** `Device.Mkdev`: Go's userspace packing of a device number, the major
    * number above bit 8, the minor number's low byte below it and its
    * remaining twelve bits from bit 20 on. */
  function Mkdev(d: Device): bv64
    requires IsInt64(d.major) && IsInt64(d.minor)
  {
    (ToBits(d.major) << 8) | (ToBits(d.minor) & 0xff) | ((ToBits(d.minor) & 0xfff00) << 12)
  }

  /** The text written to the blkio cgroup files: "major:minor value". */
  function QosString(q: Qos): string
  {
    IntToString(q.major) + ":" + IntToString(q.minor) + " " + q.value
  }

  /** The blkio line reads back: the part before the first space holds the
    * two numbers separated by ':', the rest is the value. */
  lemma QosStringFields(q: Qos)
    requires IsInt64(q.major) && IsInt64(q.minor)
    ensures SplitN(QosString(q), ' ', 2) == [IntToString(q.major) + ":" + IntToString(q.minor), q.value]
    ensures Split(IntToString(q.major) + ":" + IntToString(q.minor), ':') ==
            [IntToString(q.major), IntToString(q.minor)]
    ensures Atoi(IntToString(q.major)) == Some(q.major) && Atoi(IntToString(q.minor)) == Some(q.minor)
  {
    var a, b := IntToString(q.major), IntToString(q.minor);
    IntToStringPlain(q.major);
    IntToStringPlain(q.minor);
    NumbersLine(a, b, q.value);
    AtoiIntToString(q.major);
    AtoiIntToString(q.minor);
  }

  lemma NumbersLine(a: string, b: string, v: string)
    requires ' ' !in a && ':' !in a && ' ' !in b && ':' !in b
    ensures SplitN(a + ":" + b + " " + v, ' ', 2) == [a + ":" + b, v]
    ensures Split(a + ":" + b, ':') == [a, b]
  {
    var head := a + ":" + b;
    assert ' ' !in head;
    assert a + ":" + b + " " + v == head + [' '] + v;
    SplitNAtFirst(head, v, ' ');
    assert head == a + [':'] + b;
    SplitTwo(a, b, ':');
  }
}

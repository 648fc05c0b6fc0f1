// The interface driver factory (libnetwork/drivers/driver.go): the options a
// caller passes are applied in order to a fresh driver record, the first
// option that refuses its value stops the construction, and only then does the
// interface type choose the implementation.
module NicDriver {
  import opened Wrappers
  import opened Strs

  /** `OptionMtu`: the smallest MTU an interface may have. */
  const MinMtu := 68

  const ErrTypeNotSupported := "network interface type not supported"

  /** The parsers of the `netlink` and `net` packages the options use, as
    * parameters: each gives the parse error of a text, or None when it
    * parses. */
  datatype Parsers = Parsers(ipNet: string -> Option<string>, mac: string -> Option<string>)

  /** The fields of `common.Driver` the options set.  `ip` and `mac` hold the
    * accepted text, None while unset. */
  datatype DriverFields = DriverFields(
    ctrNicName: string,
    hostNicName: string,
    nsPath: string,
    ip: Option<string>,
    mac: Option<string>,
    mtu: int,
    qlen: int,
    bridge: string)

  const Blank := DriverFields("", "", "", None, None, 0, 0, "")

  /** One `DriverOptions` closure, by the value it was made from. */
  datatype DriverOption =
    | NsPathOpt(path: string)
    | CtrNicNameOpt(name: string)
    | HostNicNameOpt(name: string)
    | IPOpt(ip: string)
    | MacOpt(mac: string)
    | MtuOpt(mtu: int)
    | QlenOpt(qlen: int)
    | BridgeOpt(bridge: string)

  /** The two implementations `New` can return. */
  datatype Kind = Veth | Eth

  /** A constructed driver: its implementation and its record. */
  datatype Nic = Nic(kind: Kind, fields: DriverFields)

  /** The record `common.Driver` that the option closures write into. */
  class Driver {
    var ctrNicName: string
    var hostNicName: string
    var nsPath: string
    var ip: Option<string>
    var mac: Option<string>
    var mtu: int
    var qlen: int
    var bridge: string

    function Fields(): DriverFields
      reads this
    {
      DriverFields(ctrNicName, hostNicName, nsPath, ip, mac, mtu, qlen, bridge)
    }

    constructor ()
      ensures Fields() == Blank
    {
      ctrNicName, hostNicName, nsPath := "", "", "";
      ip, mac := None, None;
      mtu, qlen := 0, 0;
      bridge := "";
    }

    /** Run one option closure against this record. */
    method Apply(op: DriverOption, p: Parsers) returns (err: Option<string>)
      modifies this
      ensures var r := ApplyOption(old(Fields()), op, p);
              (r.Ok? ==> Fields() == r.value && err.None?) &&
              (r.Err? ==> Fields() == old(Fields()) && err == Some(r.msg))
    {
      err := None;
      match op
      case NsPathOpt(s) =>
        var t := TrimSpace(s);
        if |t| != 0 {
          nsPath := t;
        }
      case CtrNicNameOpt(s) =>
        ctrNicName := TrimSpace(s);
      case HostNicNameOpt(s) =>
        hostNicName := TrimSpace(s);
      case IPOpt(s) =>
        var t := TrimSpace(s);
        var e := p.ipNet(t);
        if e.Some? {
          return e;
        }
        ip := Some(t);
      case MacOpt(s) =>
        var t := TrimSpace(s);
        if |t| == 0 {
          return None;
        }
        var e := p.mac(t);
        if e.Some? {
          return e;
        }
        mac := Some(t);
      case MtuOpt(m) =>
        if m < MinMtu {
          return Some("Mtu must not be less than 68");
        }
        mtu := m;
      case QlenOpt(q) =>
        if q < 0 {
          return Some("Qlen must not be less than 0");
        }
        qlen := q;
      case BridgeOpt(s) =>
        bridge := TrimSpace(s);
    }
  }

  /** The error an option reports, which never depends on the record it is
    * applied to. */
  function OptionError(op: DriverOption, p: Parsers): Option<string>
  {
    match op
    case IPOpt(s) => p.ipNet(TrimSpace(s))
    case MacOpt(s) => if |TrimSpace(s)| == 0 then None else p.mac(TrimSpace(s))
    case MtuOpt(m) => if m < MinMtu then Some("Mtu must not be less than 68") else None
    case QlenOpt(q) => if q < 0 then Some("Qlen must not be less than 0") else None
    case _ => None
  }

  /** What one option closure does to the record. */
  function ApplyOption(f: DriverFields, op: DriverOption, p: Parsers): (r: Result<DriverFields>)
    ensures r.Err? <==> OptionError(op, p).Some?
    ensures r.Err? ==> r.msg == OptionError(op, p).value
  {
    match op
    case NsPathOpt(s) =>
      var t := TrimSpace(s);
      Ok(if |t| != 0 then f.(nsPath := t) else f)
    case CtrNicNameOpt(s) => Ok(f.(ctrNicName := TrimSpace(s)))
    case HostNicNameOpt(s) => Ok(f.(hostNicName := TrimSpace(s)))
    case IPOpt(s) =>
      var t := TrimSpace(s);
      if p.ipNet(t).Some? then Err(p.ipNet(t).value) else Ok(f.(ip := Some(t)))
    case MacOpt(s) =>
      var t := TrimSpace(s);
      if |t| == 0 then Ok(f)
      else if p.mac(t).Some? then Err(p.mac(t).value)
      else Ok(f.(mac := Some(t)))
    case MtuOpt(m) => if m < MinMtu then Err("Mtu must not be less than 68") else Ok(f.(mtu := m))
    case QlenOpt(q) => if q < 0 then Err("Qlen must not be less than 0") else Ok(f.(qlen := q))
    case BridgeOpt(s) => Ok(f.(bridge := TrimSpace(s)))
  }

  /** A blank MAC or namespace path leaves the record as it was; the names
    * and the bridge are stored trimmed, so a blank one clears the field. */
  lemma BlankOptionsSetNothing(f: DriverFields, p: Parsers, s: string)
    requires |TrimSpace(s)| == 0
    ensures ApplyOption(f, MacOpt(s), p) == Ok(f)
    ensures ApplyOption(f, NsPathOpt(s), p) == Ok(f)
    ensures ApplyOption(f, BridgeOpt(s), p) == Ok(f.(bridge := ""))
    ensures ApplyOption(f, CtrNicNameOpt(s), p) == Ok(f.(ctrNicName := ""))
  {
    var t := TrimSpace(s);
    assert t == "";
  }

  /** The numeric validators: an MTU below 68 and a negative queue length
    * are refused, and an accepted value is stored as given. */
  lemma NumericBounds(f: DriverFields, p: Parsers, mtu: int, qlen: int)
    ensures ApplyOption(f, MtuOpt(mtu), p).Ok? <==> mtu >= MinMtu
    ensures mtu >= MinMtu ==> ApplyOption(f, MtuOpt(mtu), p).value.mtu == mtu
    ensures ApplyOption(f, QlenOpt(qlen), p).Ok? <==> qlen >= 0
    ensures qlen >= 0 ==> ApplyOption(f, QlenOpt(qlen), p).value.qlen == qlen
  {
  }

  /** The record and the error after running a list of options. */
  datatype Applied = Applied(fields: DriverFields, err: Option<string>)

  /** `processOptions`: apply the options in order, stopping at the first
    * error; the record keeps what the earlier options wrote. */
  function ApplyAll(f: DriverFields, ops: seq<DriverOption>, p: Parsers): Applied
    decreases |ops|
  {
    if |ops| == 0 then Applied(f, None)
    else match ApplyOption(f, ops[0], p)
      case Err(e) => Applied(f, Some(e))
      case Ok(g) => ApplyAll(g, ops[1..], p)
  }

  /** The first option error of a list, read off the options alone. */
  function FirstError(ops: seq<DriverOption>, p: Parsers): (r: Option<string>)
    ensures r.None? <==> forall i :: 0 <= i < |ops| ==> OptionError(ops[i], p).None?
    ensures r.Some? ==> exists i :: 0 <= i < |ops| && r == OptionError(ops[i], p) &&
                                    forall j :: 0 <= j < i ==> OptionError(ops[j], p).None?
    decreases |ops|
  {
    if |ops| == 0 then None
    else if OptionError(ops[0], p).Some? then OptionError(ops[0], p)
    else
      var r := FirstError(ops[1..], p);
      assert forall i :: 1 <= i < |ops| ==> ops[i] == ops[1..][i - 1];
      r
  }

  /** The options fail exactly with the first error any of them reports,
    * whatever the record held before. */
  lemma {:induction false} ApplyAllError(f: DriverFields, ops: seq<DriverOption>, p: Parsers)
    ensures ApplyAll(f, ops, p).err == FirstError(ops, p)
    decreases |ops|
  {
    if |ops| > 0 {
      match ApplyOption(f, ops[0], p)
      case Err(e) =>
      case Ok(g) => ApplyAllError(g, ops[1..], p);
    }
  }

  /** `processOptions`: run every closure against the record in turn. */
  method ProcessOptions(d: Driver, ops: seq<DriverOption>, p: Parsers) returns (err: Option<string>)
    modifies d
    ensures var r := ApplyAll(old(d.Fields()), ops, p); d.Fields() == r.fields && err == r.err
  {
    var i := 0;
    while i < |ops|
      invariant 0 <= i <= |ops|
      invariant ApplyAll(old(d.Fields()), ops, p) == ApplyAll(d.Fields(), ops[i..], p)
    {
      assert ops[i..][1..] == ops[i + 1..];
      var e := d.Apply(ops[i], p);
      if e.Some? {
        return e;
      }
      i := i + 1;
    }
    return None;
  }

  /** The type switch of `New`: "" and "veth" give veth, "eth" gives eth,
    * and every other type (sriov and dpdk included) is refused. */
  function KindOf(typ: string): (r: Result<Kind>)
    ensures r == Ok(Veth) <==> typ == "" || typ == "veth"
    ensures r == Ok(Eth) <==> typ == "eth"
    ensures r.Err? ==> r.msg == ErrTypeNotSupported
  {
    if typ == "" || typ == "veth" then Ok(Veth)
    else if typ == "eth" then Ok(Eth)
    else Err(ErrTypeNotSupported)
  }

  /** What `New` builds. */
  function NewSpec(typ: string, ops: seq<DriverOption>, p: Parsers): Result<Nic>
  {
    var a := ApplyAll(Blank, ops, p);
    if a.err.Some? then Err(a.err.value)
    else match KindOf(typ)
      case Err(e) => Err(e)
      case Ok(k) => Ok(Nic(k, a.fields))
  }

  /** The options are checked before the type: an option error wins over an
    * unsupported type, and a driver is built exactly when every option is
    * accepted and the type is known. */
  lemma NewOutcome(typ: string, ops: seq<DriverOption>, p: Parsers)
    ensures FirstError(ops, p).Some? ==> NewSpec(typ, ops, p) == Err(FirstError(ops, p).value)
    ensures NewSpec(typ, ops, p).Ok? <==> FirstError(ops, p).None? && KindOf(typ).Ok?
    ensures FirstError(ops, p).None? && KindOf(typ).Err? ==> NewSpec(typ, ops, p) == Err(ErrTypeNotSupported)
  {
    ApplyAllError(Blank, ops, p);
  }

  /** `New`: a fresh record, the options applied to it, then the type. */
  method New(typ: string, ops: seq<DriverOption>, p: Parsers) returns (r: Result<Nic>)
    ensures r == NewSpec(typ, ops, p)
  {
    var d := new Driver();
    var err := ProcessOptions(d, ops, p);
    if err.Some? {
      return Err(err.value);
    }
    var k := KindOf(typ);
    if k.Err? {
      return Err(k.msg);
    }
    return Ok(Nic(k.value, d.Fields()));
  }
}

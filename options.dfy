// Reading the "<device>:<value>" QoS options of add-device into QoS records
// (libdevice/options.go).  Resolving the device (`ParseDevice`), asking lsblk
// for its type and parsing a size with a unit are inputs: the size parser
// works in floating point and is not modelled.
module DeviceOptions {
  import opened Wrappers
  import opened Strs
  import opened DeviceTypes

  /** The lookups an option needs: the device a path names, the lsblk type
    * of a host path, and the byte count of a size text. */
  datatype Lookups = Lookups(
    parseDevice: string -> Result<Device>,
    deviceType: string -> Result<string>,
    parseSize: string -> Result<int>)

  /** What every option shares: the text before the first ':' names a block
    * device that is a whole disk; the text after it is the value. */
  datatype Target = Target(path: string, dev: Device, value: string)

  function ParseTarget(val: string, look: Lookups): (r: Result<Target>)
    ensures r.Ok? ==> val == r.value.path + ":" + r.value.value && ':' !in r.value.path
    ensures r.Ok? ==> look.parseDevice(r.value.path) == Ok(r.value.dev) && r.value.dev.typ != "c"
    ensures r.Ok? ==> look.deviceType(r.value.dev.pathOnHost).Ok? && look.deviceType(r.value.dev.pathOnHost).value != "part"
    ensures ':' !in val ==> r == Err("Bad format: " + val)
  {
    var split := SplitN(val, ':', 2);
    if |split| < 2 then
      assert Join(split, ':') == split[0];
      Err("Bad format: " + val)
    else
      assert split[1..] == [split[1]];
      assert val == split[0] + ":" + split[1];
      match look.parseDevice(split[0])
      case Err(e) => Err(e)
      case Ok(dev) =>
        if dev.typ == "c" then Err("cannot set Qos of a char device")
        else
          match look.deviceType(dev.pathOnHost)
          case Err(e) => Err(e)
          case Ok(t) =>
            if t == "part" then Err("cannot set Qos of a child device")
            else Ok(Target(split[0], dev, split[1]))
  }

  /** One bps or iops option: the value is a size, written back in decimal. */
  function QosEntry(val: string, look: Lookups): Result<Qos>
  {
    var target := ParseTarget(val, look);
    if target.Err? then Err(target.msg)
    else
      var t := target.value;
      var rate := look.parseSize(t.value);
      if rate.Err? || rate.value < 0 then Err(RateError(val))
      else Ok(Qos(t.dev.major, t.dev.minor, t.path, IntToString(rate.value)))
  }

  function RateError(val: string): string
  {
    "Invalid rate for device: " + val +
    ". The correct format is <device-path>:<number>[<unit>]. Number must be a positive integer. Unit is optional and can be kb, mb, or gb"
  }

  /** A blkio weight: 0 (unset) or 10 to 1000. */
  predicate WeightAccepted(w: nat)
  {
    w == 0 || 10 <= w <= 1000
  }

  /** One blkio-weight option. */
  function WeightEntry(val: string, look: Lookups): Result<Qos>
  {
    var target := ParseTarget(val, look);
    if target.Err? then Err(target.msg)
    else
      var t := target.value;
      var weight := ParseUint(t.value);
      if weight.None? then Err("Invalid weight for device: " + val)
      else if weight.value > 0 && (weight.value < 10 || weight.value > 1000) then
        Err("Invalid weight for device: " + val)
      else Ok(Qos(t.dev.major, t.dev.minor, t.path, NatToString(weight.value)))
  }

  /** Reading a list of options fail-fast: the first error ends the list,
    * otherwise every option gives its record, in order. */
  function ParseAll(vals: seq<string>, entry: string -> Result<Qos>): (r: Result<seq<Qos>>)
    ensures r.Ok? ==> |r.value| == |vals| && forall i :: 0 <= i < |vals| ==> entry(vals[i]) == Ok(r.value[i])
    ensures r.Err? ==> exists i :: 0 <= i < |vals| && entry(vals[i]) == Err(r.msg) &&
                                   forall j :: 0 <= j < i ==> entry(vals[j]).Ok?
    ensures (forall i :: 0 <= i < |vals| ==> entry(vals[i]).Ok?) ==> r.Ok?
    decreases |vals|
  {
    if |vals| == 0 then Ok([])
    else
      var init := vals[..|vals| - 1];
      assert forall i :: 0 <= i < |init| ==> init[i] == vals[i];
      match ParseAll(init, entry)
      case Err(e) => Err(e)
      case Ok(q) =>
        match entry(vals[|vals| - 1])
        case Err(e) => Err(e)
        case Ok(x) => Ok(q + [x])
  }

  /** Once a prefix fails, the whole list fails with the same error. */
  lemma {:induction false} ParseAllErrPrefix(vals: seq<string>, n: nat, entry: string -> Result<Qos>)
    requires n <= |vals| && ParseAll(vals[..n], entry).Err?
    ensures ParseAll(vals, entry) == ParseAll(vals[..n], entry)
    decreases |vals| - n
  {
    if n < |vals| {
      assert vals[..n + 1][..n] == vals[..n];
      ParseAllErrPrefix(vals, n + 1, entry);
    } else {
      assert vals[..n] == vals;
    }
  }

  function QosParser(look: Lookups): string -> Result<Qos>
  {
    v => QosEntry(v, look)
  }

  function WeightParser(look: Lookups): string -> Result<Qos>
  {
    v => WeightEntry(v, look)
  }

  /** `ParseAddDeviceQosOption`. */
  method ParseAddDeviceQosOption(vals: seq<string>, look: Lookups) returns (r: Result<seq<Qos>>)
    ensures r == ParseAll(vals, QosParser(look))
  {
    r := ParseList(vals, QosParser(look));
  }

  /** `ParseAddDeviceBlkioWeight`. */
  method ParseAddDeviceBlkioWeight(vals: seq<string>, look: Lookups) returns (r: Result<seq<Qos>>)
    ensures r == ParseAll(vals, WeightParser(look))
  {
    r := ParseList(vals, WeightParser(look));
  }

  /** The loop both parsers run: append each record, stop at the first
    * error. */
  method ParseList(vals: seq<string>, entry: string -> Result<Qos>) returns (r: Result<seq<Qos>>)
    ensures r == ParseAll(vals, entry)
  {
    var devQos: seq<Qos> := [];
    var i := 0;
    while i < |vals|
      invariant 0 <= i <= |vals|
      invariant ParseAll(vals[..i], entry) == Ok(devQos)
    {
      assert vals[..i + 1][..i] == vals[..i];
      var e := entry(vals[i]);
      if e.Err? {
        ParseAllErrPrefix(vals, i + 1, entry);
        return Err(e.msg);
      }
      devQos := devQos + [e.value];
      i := i + 1;
    }
    assert vals[..i] == vals;
    return Ok(devQos);
  }

  /** A value without ':' is a format error. */
  lemma NoColonBadFormat(vals: seq<string>, look: Lookups, i: nat)
    requires i < |vals| && ':' !in vals[i]
    requires forall j :: 0 <= j < i ==> QosEntry(vals[j], look).Ok?
    ensures ParseAll(vals, QosParser(look)) == Err("Bad format: " + vals[i])
  {
    var f := QosParser(look);
    assert vals[..i + 1][..i] == vals[..i];
    assert forall j :: 0 <= j < i ==> vals[..i][j] == vals[j];
    assert ParseAll(vals[..i], f).Ok?;
    assert vals[..i + 1][i] == vals[i];
    ParseAllErrPrefix(vals, i + 1, f);
  }

  /** For a whole disk, a weight is accepted exactly when it is 0 or
    * between 10 and 1000, and is stored as written. */
  lemma WeightRange(path: string, w: nat, look: Lookups)
    requires ':' !in path && w <= MaxUint64
    requires look.parseDevice(path).Ok? && look.parseDevice(path).value.typ != "c"
    requires look.deviceType(look.parseDevice(path).value.pathOnHost).Ok?
    requires look.deviceType(look.parseDevice(path).value.pathOnHost).value != "part"
    ensures WeightEntry(path + ":" + NatToString(w), look).Ok? <==> WeightAccepted(w)
    ensures WeightAccepted(w) ==>
              var d := look.parseDevice(path).value;
              WeightEntry(path + ":" + NatToString(w), look) == Ok(Qos(d.major, d.minor, path, NatToString(w)))
  {
    var v := NatToString(w);
    TargetOfWholeDisk(path, v, look);
    ParseNatToString(w);
    WeightOfTarget(path + ":" + v, look, Target(path, look.parseDevice(path).value, v), w);
  }

  /** A weight option whose target is known is judged by its parsed
    * value alone. */
  lemma WeightOfTarget(val: string, look: Lookups, t: Target, w: nat)
    requires ParseTarget(val, look) == Ok(t) && ParseUint(t.value) == Some(w)
    ensures WeightEntry(val, look).Ok? <==> WeightAccepted(w)
    ensures WeightAccepted(w) ==> WeightEntry(val, look) == Ok(Qos(t.dev.major, t.dev.minor, t.path, NatToString(w)))
  {
  }

  /** For a whole disk, a rate is accepted exactly when the size parser
    * reads it as a non-negative byte count, which is stored in decimal. */
  lemma RateAccepted(path: string, v: string, look: Lookups)
    requires ':' !in path
    requires look.parseDevice(path).Ok? && look.parseDevice(path).value.typ != "c"
    requires look.deviceType(look.parseDevice(path).value.pathOnHost).Ok?
    requires look.deviceType(look.parseDevice(path).value.pathOnHost).value != "part"
    ensures QosEntry(path + ":" + v, look).Ok? <==> look.parseSize(v).Ok? && look.parseSize(v).value >= 0
    ensures QosEntry(path + ":" + v, look).Ok? ==>
              var d := look.parseDevice(path).value;
              QosEntry(path + ":" + v, look) == Ok(Qos(d.major, d.minor, path, IntToString(look.parseSize(v).value)))
  {
    TargetOfWholeDisk(path, v, look);
    var t := Target(path, look.parseDevice(path).value, v);
    QosOfTarget(path + ":" + v, t, look);
  }

  /** The rate step once the target is known. */
  lemma QosOfTarget(val: string, t: Target, look: Lookups)
    requires ParseTarget(val, look) == Ok(t)
    ensures QosEntry(val, look).Ok? <==> look.parseSize(t.value).Ok? && look.parseSize(t.value).value >= 0
    ensures QosEntry(val, look).Ok? ==>
              QosEntry(val, look) == Ok(Qos(t.dev.major, t.dev.minor, t.path, IntToString(look.parseSize(t.value).value)))
  {
  }

  /** A whole disk's option names that disk and carries the text after the
    * first ':'. */
  lemma TargetOfWholeDisk(path: string, v: string, look: Lookups)
    requires ':' !in path
    requires look.parseDevice(path).Ok? && look.parseDevice(path).value.typ != "c"
    requires look.deviceType(look.parseDevice(path).value.pathOnHost).Ok?
    requires look.deviceType(look.parseDevice(path).value.pathOnHost).value != "part"
    ensures ParseTarget(path + ":" + v, look) == Ok(Target(path, look.parseDevice(path).value, v))
  {
    var val := path + ":" + v;
    assert val == path + [':'] + v;
    IndexOfAfter(path, v, ':');
    assert val[..|path|] == path && val[|path| + 1..] == v;
    assert SplitN(val, ':', 2) == [path, v];
  }
}

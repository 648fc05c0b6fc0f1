// The interface record the `add-nic` and `update-nic` commands build from
// their flags (network.go): the "[host:]container" name, the generated
// host-side name, and the flag defaults.  Flags are given already parsed;
// `Option` is `None` when a flag was not set.  What netlink and the host
// answer to the validation is a `NetCheck`.
module NicCommand {
  import opened Wrappers
  import opened Strs
  import opened NetworkTypes

  /** `parseNicName`: "host:container", or only a container name.  Only the
    * first ':' separates; the container part keeps the others. */
  function ParseNicName(name: string): (r: (string, string))
  {
    var names := SplitN(name, ':', 2);
    if |names| == 1 then ("", name) else (names[0], names[1])
  }

  lemma ParseNicNameWithoutHost(name: string)
    requires ':' !in name
    ensures ParseNicName(name) == ("", name)
  {
  }

  /** "host:container" splits back into the two names. */
  lemma ParseNicNameOfPair(host: string, ctr: string)
    requires ':' !in host
    ensures ParseNicName(host + ":" + ctr) == (host, ctr)
  {
    SplitNAtFirst(host, ctr, ':');
  }

  const DefaultMtu: int := 1500
  const DefaultQlen: int := 1000
  /** The longest container name kept in a generated host name; with "_"
    * and five random characters the name stays within the 15 characters
    * Linux allows. */
  const HostPrefixLength: nat := 9

  datatype AddNicFlags = AddNicFlags(typ: string, name: string, ip: string, mac: string, bridge: string, mtu: Option<int>, qlen: Option<int>)

  /** The host name generated for a veth pair: the container name cut to
    * nine characters, "_", then five random characters (`random`). */
  function GeneratedHostName(ctrNicName: string, random: string): string
  {
    var prefix := if |ctrNicName| > HostPrefixLength then ctrNicName[..HostPrefixLength] else ctrNicName;
    prefix + "_" + random
  }

  lemma GeneratedHostNameFits(ctrNicName: string, random: string)
    requires |random| == 5
    ensures |GeneratedHostName(ctrNicName, random)| <= 15
    ensures HasPrefix(GeneratedHostName(ctrNicName, random), if |ctrNicName| > 9 then ctrNicName[..9] else ctrNicName)
  {
  }

  /** The record the `add-nic` flags describe, before validation. */
  function RequestedNic(f: AddNicFlags): InterfaceConf
  {
    var (host, ctr) := ParseNicName(f.name);
    InterfaceConf(f.ip, f.mac, if f.mtu.Some? then f.mtu.value else DefaultMtu,
                  if f.qlen.Some? then f.qlen.value else DefaultQlen, f.typ, f.bridge, host, ctr)
  }

  /** The record `add-nic` hands to `AddNic`: MTU 1500 and qlen 1000 unless
    * set; an empty container name is refused; the record must pass
    * `ValidNetworkConfig`, which trims it; without a host name one is then
    * generated from the container name. */
  function AddNicConfig(f: AddNicFlags, chk: NetCheck, random: string): (r: Result<InterfaceConf>)
    ensures r.Err? <==> ParseNicName(f.name).1 == "" || ValidNetworkConfig(RequestedNic(f), chk).Err?
    ensures r.Ok? ==> r.value.ctrNicName == ParseNicName(f.name).1 && r.value.ctrNicName != ""
    ensures r.Ok? ==> r.value.mtu == (if f.mtu.Some? then f.mtu.value else DefaultMtu)
    ensures r.Ok? ==> r.value.qlen == (if f.qlen.Some? then f.qlen.value else DefaultQlen)
    ensures r.Ok? ==> r.value.ip == TrimSpace(f.ip) && r.value.mac == TrimSpace(f.mac) &&
                      (r.value.typ == "veth" || r.value.typ == "eth")
    ensures r.Ok? && ParseNicName(f.name).0 != "" ==> r.value.hostNicName == ParseNicName(f.name).0
    ensures r.Ok? && ParseNicName(f.name).0 == "" ==> r.value.hostNicName == GeneratedHostName(r.value.ctrNicName, random)
  {
    var nic := RequestedNic(f);
    if nic.ctrNicName == "" then Err("failed to get container nic name")
    else
      match ValidNetworkConfig(nic, chk)
      case Err(e) => Err("invalid network option: " + e)
      case Ok(v) =>
        if v.hostNicName == "" then Ok(v.(hostNicName := GeneratedHostName(v.ctrNicName, random))) else Ok(v)
  }

  datatype UpdateNicFlags = UpdateNicFlags(name: string, ip: string, mac: string, bridge: string, mtu: Option<int>, qlen: Option<int>)

  /** The record `update-nic` hands to `UpdateNic`: the name is the
    * container name as given; an unset MTU is 0 and an unset qlen -1, both
    * meaning "keep the stored value". */
  function UpdateNicConfig(f: UpdateNicFlags): (r: Result<InterfaceConf>)
    ensures r.Err? <==> f.name == ""
    ensures r.Ok? ==> r.value.ctrNicName == f.name && r.value.hostNicName == "" && r.value.typ == ""
    ensures r.Ok? && f.qlen.None? ==> r.value.qlen < 0
    ensures r.Ok? && f.mtu.None? ==> r.value.mtu == 0
  {
    if f.name == "" then Err("Network interface name in container must be provided")
    else
      var qlen := if f.qlen.Some? then f.qlen.value else -1;
      var mtu := if f.mtu.Some? then f.mtu.value else 0;
      Ok(InterfaceConf(f.ip, f.mac, mtu, qlen, "", f.bridge, "", f.name))
  }
}

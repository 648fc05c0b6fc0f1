// Network interface and route records and their comparisons
// (types/network.go).  In every `IsSame*` comparison an empty (or zero)
// field of the first argument is a wildcard.
module NetworkTypes {
  import opened Wrappers
  import opened Strs

  datatype InterfaceConf = InterfaceConf(
    ip: string,
    mac: string,
    mtu: int,
    qlen: int,
    typ: string,
    bridge: string,
    hostNicName: string,
    ctrNicName: string)

  datatype Route = Route(dest: string, src: string, gw: string, dev: string)

  const EmptyNic := InterfaceConf("", "", 0, 0, "", "", "", "")
  const EmptyRoute := Route("", "", "", "")

  /** `InterfaceConf.String`. */
  function NicString(n: InterfaceConf): string
  {
    "Type:" + n.typ + ",ip:" + n.ip + ",name:" + n.hostNicName + "->" + n.ctrNicName
  }

  /** `Route.String`. */
  function RouteString(r: Route): string
  {
    "{dest:" + r.dest + ",src:" + r.src + ",gw:" + r.gw + ",dev:" + r.dev + "}"
  }

  /** The four ways two interfaces clash: container name, host name, a
    * non-empty MAC address, or the IP text (two empty IPs clash, two empty
    * MACs do not). */
  predicate NicsClash(n1: InterfaceConf, n2: InterfaceConf)
  {
    n1.ctrNicName == n2.ctrNicName || n1.hostNicName == n2.hostNicName ||
    (n1.mac != "" && n1.mac == n2.mac) || n1.ip == n2.ip
  }

  /** `IsConflictNic`: the error for the first clash found, checked in the
    * order container name, host name, MAC, IP. */
  function IsConflictNic(n1: InterfaceConf, n2: InterfaceConf): (r: Option<string>)
    ensures r.Some? <==> NicsClash(n1, n2)
    ensures n1.ctrNicName == n2.ctrNicName ==> r == Some("interface name conflict: " + n1.ctrNicName)
    ensures n1.ctrNicName != n2.ctrNicName && n1.hostNicName == n2.hostNicName ==>
              r == Some("interface name conflict: " + n1.hostNicName)
  {
    if n1.ctrNicName == n2.ctrNicName then Some("interface name conflict: " + n1.ctrNicName)
    else if n1.hostNicName == n2.hostNicName then Some("interface name conflict: " + n1.hostNicName)
    else if n1.mac != "" && n1.mac == n2.mac then Some("interface mac conflict: " + n1.mac)
    else if n1.ip == n2.ip then Some("interface ip conflict: " + n1.ip)
    else None
  }

  /** `IsSameNic(obj, src)`: every non-empty, non-zero field of `obj` equals
    * the one of `src`. */
  predicate IsSameNic(obj: InterfaceConf, src: InterfaceConf)
  {
    (obj.ip == src.ip || obj.ip == "") &&
    (obj.mac == src.mac || obj.mac == "") &&
    (obj.mtu == src.mtu || obj.mtu == 0) &&
    (obj.qlen == src.qlen || obj.qlen == 0) &&
    (obj.typ == src.typ || obj.typ == "") &&
    (obj.bridge == src.bridge || obj.bridge == "") &&
    (obj.hostNicName == src.hostNicName || obj.hostNicName == "") &&
    (obj.ctrNicName == src.ctrNicName || obj.ctrNicName == "")
  }

  /** `IsSameRoute(obj, src)`: every non-empty field of `obj` equals the one
    * of `src`. */
  predicate IsSameRoute(obj: Route, src: Route)
  {
    (obj.dest == src.dest || obj.dest == "") &&
    (obj.src == src.src || obj.src == "") &&
    (obj.gw == src.gw || obj.gw == "") &&
    (obj.dev == src.dev || obj.dev == "")
  }

  /** `IsConflictRoute`: an "already exists" error exactly when the new route
    * matches the stored one. */
  function IsConflictRoute(r1: Route, r2: Route): (r: Option<string>)
    ensures r.Some? <==> IsSameRoute(r1, r2)
    ensures r.Some? ==> r.value == "route " + RouteString(r1) + " alread exist"
  {
    if IsSameRoute(r1, r2) then Some("route " + RouteString(r1) + " alread exist") else None
  }

  // ---------------------------------------------------------------------
  // A reference reading of the wildcard comparisons: `obj` matches `src`
  // exactly when filling obj's empty fields from `src` yields `src`.

  function FillNic(obj: InterfaceConf, src: InterfaceConf): InterfaceConf
  {
    InterfaceConf(
      if obj.ip == "" then src.ip else obj.ip,
      if obj.mac == "" then src.mac else obj.mac,
      if obj.mtu == 0 then src.mtu else obj.mtu,
      if obj.qlen == 0 then src.qlen else obj.qlen,
      if obj.typ == "" then src.typ else obj.typ,
      if obj.bridge == "" then src.bridge else obj.bridge,
      if obj.hostNicName == "" then src.hostNicName else obj.hostNicName,
      if obj.ctrNicName == "" then src.ctrNicName else obj.ctrNicName)
  }

  function FillRoute(obj: Route, src: Route): Route
  {
    Route(
      if obj.dest == "" then src.dest else obj.dest,
      if obj.src == "" then src.src else obj.src,
      if obj.gw == "" then src.gw else obj.gw,
      if obj.dev == "" then src.dev else obj.dev)
  }

  lemma IsSameNicIsFill(obj: InterfaceConf, src: InterfaceConf)
    ensures IsSameNic(obj, src) <==> FillNic(obj, src) == src
  {
  }

  lemma IsSameRouteIsFill(obj: Route, src: Route)
    ensures IsSameRoute(obj, src) <==> FillRoute(obj, src) == src
  {
  }

  /** Every interface and route matches itself, and the all-empty filter
    * matches everything. */
  lemma SameReflexive(n: InterfaceConf, r: Route)
    ensures IsSameNic(n, n) && IsSameRoute(r, r)
    ensures IsSameNic(EmptyNic, n) && IsSameRoute(EmptyRoute, r)
  {
  }

  /** The wildcard applies on the `obj` side only: the comparisons are not
    * symmetric. */
  lemma SameNotSymmetric()
    ensures var a := EmptyNic.(ctrNicName := "eth1");
            var b := a.(ip := "10.0.0.2/24");
            IsSameNic(a, b) && !IsSameNic(b, a)
    ensures var a := EmptyRoute.(dest := "10.0.0.0/8");
            var b := a.(dev := "eth1");
            IsSameRoute(a, b) && !IsSameRoute(b, a)
  {
  }

  /** Two empty IP strings clash; two empty MAC addresses do not. */
  lemma EmptyFieldsClash(n1: InterfaceConf, n2: InterfaceConf)
    requires n1.ctrNicName != n2.ctrNicName && n1.hostNicName != n2.hostNicName
    ensures n1.ip == "" && n2.ip == "" ==> NicsClash(n1, n2)
    ensures n1.mac == "" && n2.mac == "" && n1.ip != n2.ip ==> !NicsClash(n1, n2)
  {
  }
  // ---------------------------------------------------------------------
  // ValidNetworkConfig

  /** What `ValidNetworkConfig` asks of netlink and the host: the error of
    * parsing an IP network and a MAC address (`None` when they parse), and
    * whether the host has a link of a given name. */
  datatype NetCheck = NetCheck(
    parseIPNet: string -> Option<string>,
    parseMAC: string -> Option<string>,
    linkExists: string -> bool)

  /** `ValidNetworkConfig`: the IP (always) and the MAC (when given) must
    * parse after trimming spaces; a veth needs a free host name and a
    * bridge; an eth needs an existing host link and no bridge; any other
    * type is refused.  The checked record has its IP, MAC and, for a veth,
    * its bridge trimmed. */
  function ValidNetworkConfig(c: InterfaceConf, chk: NetCheck): (r: Result<InterfaceConf>)
    ensures r.Ok? <==>
              chk.parseIPNet(TrimSpace(c.ip)).None? &&
              (TrimSpace(c.mac) == "" || chk.parseMAC(TrimSpace(c.mac)).None?) &&
              ((c.typ == "veth" && !chk.linkExists(c.hostNicName) && TrimSpace(c.bridge) != "") ||
               (c.typ == "eth" && c.hostNicName != "" && c.bridge == "" && chk.linkExists(c.hostNicName)))
    ensures r.Ok? ==> r.value == c.(ip := TrimSpace(c.ip), mac := TrimSpace(c.mac),
                                    bridge := if c.typ == "veth" then TrimSpace(c.bridge) else c.bridge)
  {
    var ip := TrimSpace(c.ip);
    var mac := TrimSpace(c.mac);
    if chk.parseIPNet(ip).Some? then Err(chk.parseIPNet(ip).value)
    else if mac != "" && chk.parseMAC(mac).Some? then Err(chk.parseMAC(mac).value)
    else if c.typ == "veth" then
      if chk.linkExists(c.hostNicName) then
        Err("Host has nic with name " + c.hostNicName + ", please choose another one")
      else if TrimSpace(c.bridge) == "" then Err("bridge must be specified")
      else Ok(c.(ip := ip, mac := mac, bridge := TrimSpace(c.bridge)))
    else if c.typ == "eth" then
      if c.hostNicName == "" then Err("host nic name input error")
      else if c.bridge != "" then Err("for eth type, bridge cannot be set")
      else if !chk.linkExists(c.hostNicName) then Err("HostNic(" + c.hostNicName + ") not found, please check")
      else Ok(c.(ip := ip, mac := mac))
    else Err("unsupported type " + c.typ)
  }

  /** Validation is idempotent: a checked record checks again to itself. */
  lemma ValidNetworkConfigIdempotent(c: InterfaceConf, chk: NetCheck)
    requires ValidNetworkConfig(c, chk).Ok?
    ensures ValidNetworkConfig(ValidNetworkConfig(c, chk).value, chk) == ValidNetworkConfig(c, chk)
  {
    TrimSpaceIdempotent(c.ip);
    TrimSpaceIdempotent(c.mac);
    TrimSpaceIdempotent(c.bridge);
  }
}

// The syslog service address the tools log to (utils/utils.go): "" for the
// default socket, "udp://addr", "tcp://addr" or "unix://path".
module SyslogService {
  import opened Wrappers
  import opened Strs

  datatype Service = Service(typ: string, addr: string)

  const UdpPrefix: string := "udp://"
  const TcpPrefix: string := "tcp://"
  const UnixPrefix: string := "unix://"
  const DefaultUdpService: string := "localhost:541"
  const DefaultTcpService: string := "localhost:541"

  /** The shape of `ParseSyslogService`, with the address of a "udp://"
    * service given by `udpAddr`. */
  function ParseWith(service: string, udpAddr: string -> string): Result<Service>
  {
    if service == "" then Ok(Service("default", ""))
    else if HasPrefix(service, UdpPrefix) then Ok(Service("udp", udpAddr(service[|UdpPrefix|..])))
    else if HasPrefix(service, TcpPrefix) then
      var addr := service[|TcpPrefix|..];
      Ok(Service("tcp", if addr == "" then DefaultTcpService else addr))
    else if HasPrefix(service, UnixPrefix) then Ok(Service("", service[|UnixPrefix|..]))
    else Err("Unspported syslog network: " + service)
  }

  /** `ParseSyslogService` as written: the udp branch assigns the address to
    * a new local that shadows the result variable, so it is always "". */
  function ParseSyslogServiceAsWritten(service: string): (r: Result<Service>)
    ensures r.Ok? && HasPrefix(service, UdpPrefix) ==> r.value == Service("udp", "")
  {
    ParseWith(service, rest => "")
  }

  /** `ParseSyslogService` with the udp address kept, defaulting like tcp. */
  function ParseSyslogService(service: string): (r: Result<Service>)
  {
    ParseWith(service, rest => if rest == "" then DefaultUdpService else rest)
  }

  /** The text a parsed service stands for. */
  function ServiceText(s: Service): string
  {
    if s.typ == "default" then ""
    else if s.typ == "udp" then UdpPrefix + s.addr
    else if s.typ == "tcp" then TcpPrefix + s.addr
    else UnixPrefix + s.addr
  }

  /** The services `ParseSyslogService` can return. */
  predicate Parsable(s: Service)
  {
    (s.typ == "default" && s.addr == "") ||
    ((s.typ == "udp" || s.typ == "tcp") && s.addr != "") ||
    s.typ == ""
  }

  lemma PrefixOf(p: string, rest: string)
    ensures HasPrefix(p + rest, p) && (p + rest)[|p|..] == rest
  {
    assert (p + rest)[..|p|] == p;
  }

  lemma NotPrefix(p: string, q: string, rest: string, k: nat)
    requires k < |p| && k < |q| && p[k] != q[k]
    ensures !HasPrefix(p + rest, q)
  {
    assert (p + rest)[k] == p[k];
  }

  /** Exactly the empty text and the three prefixes are accepted. */
  lemma ParseErrors(service: string)
    ensures ParseSyslogService(service).Err? <==>
              service != "" && !HasPrefix(service, UdpPrefix) && !HasPrefix(service, TcpPrefix) && !HasPrefix(service, UnixPrefix)
    ensures ParseSyslogService(service).Err? ==> ParseSyslogService(service).msg == "Unspported syslog network: " + service
  {
  }

  /** Every parse result is a service of the accepted shape, and its text is
    * the input unless an empty udp or tcp address was defaulted. */
  lemma ParseThenText(service: string)
    requires ParseSyslogService(service).Ok?
    ensures Parsable(ParseSyslogService(service).value)
    ensures ServiceText(ParseSyslogService(service).value) == service ||
            service == UdpPrefix || service == TcpPrefix
  {
    var s := ParseSyslogService(service).value;
    if HasPrefix(service, UdpPrefix) {
      assert service == UdpPrefix + service[|UdpPrefix|..];
    } else if HasPrefix(service, TcpPrefix) {
      assert service == TcpPrefix + service[|TcpPrefix|..];
    } else if HasPrefix(service, UnixPrefix) {
      assert service == UnixPrefix + service[|UnixPrefix|..];
    }
  }

  /** Parsing the text of a service of the accepted shape gives it back. */
  lemma TextThenParse(s: Service)
    requires Parsable(s)
    ensures ParseSyslogService(ServiceText(s)) == Ok(s)
  {
    if s.typ == "udp" {
      PrefixOf(UdpPrefix, s.addr);
    } else if s.typ == "tcp" {
      PrefixOf(TcpPrefix, s.addr);
      NotPrefix(TcpPrefix, UdpPrefix, s.addr, 0);
    } else if s.typ == "" {
      PrefixOf(UnixPrefix, s.addr);
      NotPrefix(UnixPrefix, UdpPrefix, s.addr, 1);
      NotPrefix(UnixPrefix, TcpPrefix, s.addr, 0);
    }
  }

  /** The written parser loses every udp address: "udp://h" names no
    * address at all. */
  lemma UdpAddressLost()
    ensures ParseSyslogServiceAsWritten("udp://h") == Ok(Service("udp", ""))
    ensures ParseSyslogService("udp://h") == Ok(Service("udp", "h"))
  {
    PrefixOf(UdpPrefix, "h");
  }

  /** Away from udp the written parser and the corrected one agree. */
  lemma AsWrittenAgrees(service: string)
    requires !HasPrefix(service, UdpPrefix)
    ensures ParseSyslogServiceAsWritten(service) == ParseSyslogService(service)
  {
  }
}

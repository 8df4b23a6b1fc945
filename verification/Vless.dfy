/** A VLESS server configuration, as decoded from a share link or from an xray document. */
module Vless {
  import opened Base

  datatype Transport = TCP | WS | GRPC | HTTPUpgrade | XHTTP | MKCP | QUIC

  datatype Security = NoSecurity | TLS | Reality

  datatype Tls = Tls(
    security: Security, sni: string, alpn: seq<string>, fingerprint: string, allowInsecure: bool,
    publicKey: string, shortId: string, spiderX: string)

  datatype Net = Net(
    transport: Transport, path: string, wsHost: string, grpcServiceName: string, grpcMode: string,
    xhttpMode: string, headerType: string, seed: string, quicSec: string, quicKey: string)

  /** Everything about a connection beyond where it goes and who it is for. */
  datatype Options = Options(flow: string, encryption: string, tls: Tls, net: Net)

  datatype Config = Config(address: string, port: nat, uuid: string, remark: string, opts: Options)

  function TransportName(t: Transport): string {
    match t
    case TCP => "tcp"
    case WS => "ws"
    case GRPC => "grpc"
    case HTTPUpgrade => "httpupgrade"
    case XHTTP => "xhttp"
    case MKCP => "mkcp"
    case QUIC => "quic"
  }

  function ParseTransport(s: string): Option<Transport> {
    if s == "" || s == "tcp" then Some(TCP)
    else if s == "ws" then Some(WS)
    else if s == "grpc" then Some(GRPC)
    else if s == "httpupgrade" then Some(HTTPUpgrade)
    else if s == "xhttp" then Some(XHTTP)
    else if s == "mkcp" || s == "kcp" then Some(MKCP)
    else if s == "quic" then Some(QUIC)
    else None
  }

  function SecurityName(s: Security): string {
    match s
    case NoSecurity => "none"
    case TLS => "tls"
    case Reality => "reality"
  }

  function ParseSecurity(s: string): Option<Security> {
    if s == "" || s == "none" then Some(NoSecurity)
    else if s == "tls" then Some(TLS)
    else if s == "reality" then Some(Reality)
    else None
  }

  lemma TransportRoundTrip(t: Transport)
    ensures ParseTransport(TransportName(t)) == Some(t)
  {}

  lemma SecurityRoundTrip(s: Security)
    ensures ParseSecurity(SecurityName(s)) == Some(s)
  {}

  /** Beside the names that are printed, a missing one means plain TCP and there is a short name for mKCP; nothing else is
      understood. */
  lemma TransportsUnderstood(s: string)
    ensures ParseTransport(s).Some? == (s == "" || s == "kcp" || exists t: Transport :: s == TransportName(t))
    ensures ParseTransport("") == Some(TCP) && ParseTransport("kcp") == Some(MKCP)
  {
    assert TransportName(TCP) == "tcp" && TransportName(WS) == "ws" && TransportName(GRPC) == "grpc";
    assert TransportName(HTTPUpgrade) == "httpupgrade" && TransportName(XHTTP) == "xhttp";
    assert TransportName(MKCP) == "mkcp" && TransportName(QUIC) == "quic";
    assert "kcp"[0] == 'k' && "tcp"[0] == 't';
  }

  /** A missing security means none, and nothing but the printed names is understood otherwise. */
  lemma SecuritiesUnderstood(s: string)
    ensures ParseSecurity(s).Some? == (s == "" || exists t: Security :: s == SecurityName(t))
    ensures ParseSecurity("") == Some(NoSecurity)
  {
    assert SecurityName(NoSecurity) == "none" && SecurityName(TLS) == "tls" && SecurityName(Reality) == "reality";
  }

  function OrDefault(s: string, d: string): string { if s == "" then d else s }

  // ---------------------------------------------------------------- compatibility

  predicate VisionFlow(f: string) { f == "xtls-rprx-vision" || f == "xtls-rprx-vision-udp443" }

  /** A flow needs TCP under TLS or Reality, and is one of two. */
  predicate FlowFits(o: Options) {
    o.flow == "" || (o.net.transport == TCP && o.tls.security != NoSecurity && VisionFlow(o.flow))
  }

  /** Reality works over three transports and needs a key and a server name. */
  predicate RealityFits(o: Options) {
    o.tls.security == Reality ==>
      && (o.net.transport == TCP || o.net.transport == GRPC || o.net.transport == XHTTP)
      && o.tls.publicKey != "" && o.tls.sni != ""
  }

  /** What the user is told about a configuration that is accepted. */
  datatype Notice = DroppedFlow(flow: string) | NoSni | InsecureQuic

  /** Refuses what cannot work and drops a flow that does not fit; each oddity is reported once, in this order. */
  method Normalize(o: Options) returns (r: Result<Options>, notices: seq<Notice>)
    ensures r.Ok? == RealityFits(o)
    ensures r.Ok? ==> r.value == if FlowFits(o) then o else o.(flow := "")
    ensures r.Ok? ==> FlowFits(r.value) && RealityFits(r.value)
    ensures r.Err? ==> notices == []
    ensures r.Ok? ==> notices == (if FlowFits(o) then [] else [DroppedFlow(o.flow)])
                                 + (if o.tls.security == TLS && o.tls.sni == "" then [NoSni] else [])
                                 + (if o.tls.security == NoSecurity && o.net.transport == QUIC then [InsecureQuic] else [])
  {
    var t := o.net.transport;
    notices := [];
    if o.tls.security == Reality {
      if t != TCP && t != GRPC && t != XHTTP {
        return Err, [];
      }
      if o.tls.publicKey == "" || o.tls.sni == "" {
        return Err, [];
      }
    }
    r := Ok(o);
    if o.flow != "" {
      var fits := t == TCP && (o.tls.security == TLS || o.tls.security == Reality) && VisionFlow(o.flow);
      if !fits {
        notices := [DroppedFlow(o.flow)];
        r := Ok(o.(flow := ""));
      }
    }
    if o.tls.security == TLS && o.tls.sni == "" {
      notices := notices + [NoSni];
    }
    if o.tls.security == NoSecurity && t == QUIC {
      notices := notices + [InsecureQuic];
    }
  }

  /** The compatibility rules, written out. */
  lemma CompatibleExactly(o: Options)
    ensures FlowFits(o) ==
            (o.flow == "" ||
             (o.net.transport == TCP && (o.tls.security == TLS || o.tls.security == Reality) &&
              o.flow in {"xtls-rprx-vision", "xtls-rprx-vision-udp443"}))
    ensures RealityFits(o) ==
            (o.tls.security != Reality ||
             (o.net.transport in {TCP, GRPC, XHTTP} && o.tls.publicKey != "" && o.tls.sni != ""))
  {}
}

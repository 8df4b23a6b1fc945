/**
 The xray side of a configuration: the outbound that is generated for it, and the parser of xray subscriptions
 that reads such outbounds back. A key that may be absent is an option.
 */
module Xray {
  import opened Base
  import opened Text
  import opened Vless

  // ---------------------------------------------------------------- documents

  datatype TlsSettings = TlsSettings(
    serverName: Option<string>, fingerprint: Option<string>, alpn: Option<seq<string>>, allowInsecure: Option<bool>,
    pinned: bool)

  datatype RealitySettings = RealitySettings(
    serverName: Option<string>, fingerprint: Option<string>, publicKey: Option<string>, password: Option<string>,
    shortId: Option<string>, spiderX: Option<string>, mldsa65Verify: Option<string>)

  datatype Header = Header(kind: Option<string>, request: bool)

  /** The nested document an xhttp section may carry. */
  datatype Extra = NoExtra | BadExtra | UnsupportedExtra | HeadersExtra | PlainExtra

  datatype HttpSettings = HttpSettings(
    path: Option<string>, host: Option<string>, mode: Option<string>, headers: seq<(string, string)>,
    unsupported: bool, extra: Extra)

  datatype GrpcSettings = GrpcSettings(serviceName: Option<string>, multiMode: Option<bool>, authority: Option<string>)

  datatype KcpSettings = KcpSettings(seed: Option<string>, header: Option<Header>)

  datatype QuicSettings = QuicSettings(security: Option<string>, key: Option<string>, header: Option<Header>)

  /** The sections of the transports. */
  datatype Sections = Sections(
    tcp: Option<Header>, raw: Option<Header>, ws: Option<HttpSettings>, httpupgrade: Option<HttpSettings>,
    xhttp: Option<HttpSettings>, splithttp: Option<HttpSettings>, grpc: Option<GrpcSettings>,
    kcp: Option<KcpSettings>, quic: Option<QuicSettings>)

  datatype Stream = Stream(
    network: Option<string>, security: Option<string>, masked: bool, dialerProxy: bool,
    tls: Option<TlsSettings>, reality: Option<RealitySettings>, sections: Sections)

  datatype User = User(id: Option<string>, encryption: Option<string>, flow: Option<string>, reverse: bool)

  datatype Endpoint = Endpoint(address: Option<string>, port: Option<int>, users: seq<User>)

  datatype Settings = BadSettings | Settings(vnext: seq<Endpoint>, flat: Option<Endpoint>)

  datatype Outbound = Outbound(tag: Option<string>, chained: bool, settings: Settings, stream: Stream)

  function Val(s: Option<string>): string { if s.Some? then s.value else "" }

  function Flag(b: Option<bool>): bool { b == Some(true) }

  function NoSections(): Sections { Sections(None, None, None, None, None, None, None, None, None) }

  function NoHttp(): HttpSettings { HttpSettings(None, None, None, [], false, NoExtra) }

  function Kind(h: Option<Header>): string { if h.Some? then Val(h.value.kind) else "" }

  // ---------------------------------------------------------------- generating

  function TlsSection(c: Config): Option<TlsSettings> {
    var t := c.opts.tls;
    if t.security != TLS then None
    else Some(TlsSettings(Some(OrDefault(t.sni, c.address)),
                          if t.fingerprint != "" then Some(t.fingerprint) else None,
                          if |t.alpn| > 0 then Some(t.alpn) else None, Some(t.allowInsecure), false))
  }

  function RealitySection(t: Tls): Option<RealitySettings> {
    if t.security != Reality then None
    else Some(RealitySettings(Some(t.sni), Some(t.fingerprint), Some(t.publicKey), None, Some(t.shortId), Some(t.spiderX), None))
  }

  function Section(n: Net): Sections {
    var none := NoSections();
    var header := Some(Header(Some(OrDefault(n.headerType, "none")), false));
    match n.transport
    case WS => none.(ws := Some(NoHttp().(path := Some(n.path), headers := [("Host", n.wsHost)])))
    case GRPC => none.(grpc := Some(GrpcSettings(Some(n.grpcServiceName), Some(n.grpcMode == "multi"), None)))
    case HTTPUpgrade => none.(httpupgrade := Some(NoHttp().(path := Some(n.path), host := Some(n.wsHost))))
    case XHTTP =>
      none.(xhttp := Some(NoHttp().(path := Some(n.path), mode := Some(n.xhttpMode),
                                    host := if n.wsHost != "" then Some(n.wsHost) else None)))
    case MKCP => none.(kcp := Some(KcpSettings(Some(n.seed), header)))
    case QUIC => none.(quic := Some(QuicSettings(Some(n.quicSec), Some(n.quicKey), header)))
    case TCP => if n.headerType == "http" then none.(tcp := Some(Header(Some("http"), false))) else none
  }

  function StreamOf(c: Config): Stream {
    Stream(Some(TransportName(c.opts.net.transport)), Some(SecurityName(c.opts.tls.security)), false, false,
           TlsSection(c), RealitySection(c.opts.tls), Section(c.opts.net))
  }

  /** The outbound of a configuration; a resolved address replaces the name it stands for. */
  function OutboundOf(c: Config, serverIP: string): Outbound {
    Outbound(Some("proxy"), false,
             Settings([Endpoint(Some(OrDefault(serverIP, c.address)), Some(c.port),
                                [User(Some(c.uuid), Some(OrDefault(c.opts.encryption, "none")), Some(c.opts.flow), false)])], None),
             StreamOf(c))
  }

  /** The sections are set case by case. */
  method BuildStream(c: Config) returns (ss: Stream)
    ensures ss == StreamOf(c)
  {
    var t, n := c.opts.tls, c.opts.net;
    ss := Stream(Some(TransportName(n.transport)), None, false, false, None, None, NoSections());
    match t.security {
    case Reality =>
      ss := ss.(security := Some("reality"), reality := RealitySection(t));
    case TLS =>
      var tls := TlsSettings(Some(OrDefault(t.sni, c.address)), None, None, Some(t.allowInsecure), false);
      if t.fingerprint != "" {
        tls := tls.(fingerprint := Some(t.fingerprint));
      }
      if |t.alpn| > 0 {
        tls := tls.(alpn := Some(t.alpn));
      }
      ss := ss.(security := Some("tls"), tls := Some(tls));
    case NoSecurity =>
      ss := ss.(security := Some("none"));
    }
    ss := ss.(sections := Section(n));
  }

  // ---------------------------------------------------------------- reading a stream

  /** A feature that is not supported makes an outbound complex; a value that is not understood, invalid. */
  datatype Applied<+T> = Unsupported | Invalid | Applied(value: T)

  /** The header names are compared without case. */
  predicate IsHost(key: string) { SameFolded(key, "Host") }

  /** The host after reading headers, in the order they come, or nothing when one is no host header. */
  function HostFrom(headers: seq<(string, string)>, host: string): Option<string> {
    if headers == [] then Some(host)
    else if !IsHost(headers[0].0) then None
    else HostFrom(headers[1..], if host == "" then headers[0].1 else host)
  }

  method ApplyHost(h: HttpSettings) returns (host: Option<string>)
    ensures host == HostFrom(h.headers, Val(h.host))
  {
    var name := Val(h.host);
    for i := 0 to |h.headers|
      invariant HostFrom(h.headers, Val(h.host)) == HostFrom(h.headers[i..], name)
    {
      var (key, value) := h.headers[i];
      if !IsHost(key) {
        return None;
      }
      if name == "" {
        name := value;
      }
    }
    return Some(name);
  }

  function Blank(t: Transport): Net { Net(t, "", "", "", "", "", "", "", "", "") }

  function HttpNet(t: Transport, h: HttpSettings): Applied<Net> {
    var host := HostFrom(h.headers, Val(h.host));
    if host.None? then Unsupported
    else Applied(Blank(t).(path := Val(h.path), wsHost := host.value, xhttpMode := if t == XHTTP then Val(h.mode) else ""))
  }

  function XhttpNet(h: HttpSettings): Applied<Net> {
    if h.unsupported then Unsupported
    else match h.extra
      case BadExtra => Invalid
      case UnsupportedExtra => Unsupported
      case HeadersExtra => Unsupported
      case _ => HttpNet(XHTTP, h)
  }

  function OrNoHttp(h: Option<HttpSettings>): HttpSettings { if h.Some? then h.value else NoHttp() }

  function ReadNet(s: Sections, t: Transport): Applied<Net> {
    match t
    case TCP =>
      var tcp := if s.raw.Some? then s.raw else s.tcp;
      if tcp.Some? && tcp.value.request then Unsupported else Applied(Blank(t).(headerType := Kind(tcp)))
    case WS => HttpNet(t, OrNoHttp(s.ws))
    case HTTPUpgrade => HttpNet(t, OrNoHttp(s.httpupgrade))
    case XHTTP =>
      var h := if s.xhttp.Some? then s.xhttp else s.splithttp;
      if h.None? then Applied(Blank(t)) else XhttpNet(h.value)
    case GRPC =>
      if s.grpc.None? then Applied(Blank(t))
      else if Val(s.grpc.value.authority) != "" then Unsupported
      else Applied(Blank(t).(grpcServiceName := Val(s.grpc.value.serviceName),
                             grpcMode := if Flag(s.grpc.value.multiMode) then "multi" else ""))
    case MKCP =>
      if s.kcp.None? then Applied(Blank(t))
      else Applied(Blank(t).(seed := Val(s.kcp.value.seed), headerType := Kind(s.kcp.value.header)))
    case QUIC =>
      if s.quic.None? then Applied(Blank(t))
      else Applied(Blank(t).(quicSec := Val(s.quic.value.security), quicKey := Val(s.quic.value.key),
                             headerType := Kind(s.quic.value.header)))
  }

  function NoTls(s: Security): Tls { Tls(s, "", [], "", false, "", "", "") }

  function ReadTls(s: Stream, security: Security): Applied<Tls> {
    match security
    case NoSecurity => Applied(NoTls(security))
    case TLS =>
      if s.tls.None? then Applied(NoTls(security))
      else
        var t := s.tls.value;
        if t.pinned then Unsupported
        else Applied(NoTls(security).(sni := Val(t.serverName), alpn := if t.alpn.Some? then t.alpn.value else [],
                                      fingerprint := Val(t.fingerprint), allowInsecure := Flag(t.allowInsecure)))
    case Reality =>
      if s.reality.None? then Applied(NoTls(security))
      else
        var r := s.reality.value;
        if Val(r.mldsa65Verify) != "" then Unsupported
        else Applied(NoTls(security).(sni := Val(r.serverName), fingerprint := Val(r.fingerprint),
                                      publicKey := OrDefault(Val(r.password), Val(r.publicKey)),
                                      shortId := Val(r.shortId), spiderX := Val(r.spiderX)))
  }

  function NetworkName(s: string): string {
    if s == "raw" then "tcp" else if s == "splithttp" then "xhttp" else s
  }

  /** The options a stream stands for, with the flow and the encryption of the user. */
  function ReadStream(s: Stream, flow: string, encryption: string): Applied<Options> {
    var t, security := ParseTransport(NetworkName(Val(s.network))), ParseSecurity(Val(s.security));
    if s.masked then Unsupported
    else if t.None? || security.None? then Invalid
    else
      var tls, net := ReadTls(s, security.value), ReadNet(s.sections, t.value);
      match tls
      case Unsupported => Unsupported
      case Invalid => Invalid
      case Applied(a) =>
        match net
        case Unsupported => Unsupported
        case Invalid => Invalid
        case Applied(b) => Applied(Options(flow, encryption, a, b))
  }

  /** The section of the transport, through the branches of the source. */
  method ApplyNet(s: Sections, t: Transport) returns (r: Applied<Net>)
    ensures r == ReadNet(s, t)
  {
    var c := Blank(t);
    match t
    case TCP =>
      var tcp := if s.raw.Some? then s.raw else s.tcp;
      if tcp.Some? {
        if tcp.value.request {
          return Unsupported;
        }
        c := c.(headerType := Val(tcp.value.kind));
      }
      return Applied(c);
    case WS =>
      r := ApplyHttp(c, OrNoHttp(s.ws));
    case HTTPUpgrade =>
      r := ApplyHttp(c, OrNoHttp(s.httpupgrade));
    case XHTTP =>
      var h := if s.xhttp.Some? then s.xhttp else s.splithttp;
      if h.None? {
        return Applied(c);
      }
      if h.value.unsupported || h.value.extra.UnsupportedExtra? || h.value.extra.HeadersExtra? {
        return Unsupported;
      }
      if h.value.extra.BadExtra? {
        return Invalid;
      }
      r := ApplyHttp(c.(xhttpMode := Val(h.value.mode)), h.value);
    case GRPC =>
      if s.grpc.Some? {
        if Val(s.grpc.value.authority) != "" {
          return Unsupported;
        }
        c := c.(grpcServiceName := Val(s.grpc.value.serviceName));
        if Flag(s.grpc.value.multiMode) {
          c := c.(grpcMode := "multi");
        }
      }
      return Applied(c);
    case MKCP =>
      if s.kcp.Some? {
        c := c.(seed := Val(s.kcp.value.seed), headerType := Kind(s.kcp.value.header));
      }
      return Applied(c);
    case QUIC =>
      if s.quic.Some? {
        c := c.(quicSec := Val(s.quic.value.security), quicKey := Val(s.quic.value.key), headerType := Kind(s.quic.value.header));
      }
      return Applied(c);
  }

  method ApplyHttp(c: Net, h: HttpSettings) returns (r: Applied<Net>)
    ensures var host := HostFrom(h.headers, Val(h.host));
            r == if host.None? then Unsupported else Applied(c.(path := Val(h.path), wsHost := host.value))
  {
    var host := ApplyHost(h);
    if host.None? {
      return Unsupported;
    }
    return Applied(c.(path := Val(h.path), wsHost := host.value));
  }

  method ApplyTls(s: Stream, security: Security) returns (r: Applied<Tls>)
    ensures r == ReadTls(s, security)
  {
    var c := NoTls(security);
    if security == TLS && s.tls.Some? {
      var t := s.tls.value;
      if t.pinned {
        return Unsupported;
      }
      c := c.(sni := Val(t.serverName), fingerprint := Val(t.fingerprint), allowInsecure := Flag(t.allowInsecure));
      if t.alpn.Some? {
        c := c.(alpn := t.alpn.value);
      }
    } else if security == Reality && s.reality.Some? {
      var t := s.reality.value;
      if Val(t.mldsa65Verify) != "" {
        return Unsupported;
      }
      c := c.(sni := Val(t.serverName), fingerprint := Val(t.fingerprint), publicKey := Val(t.publicKey),
              shortId := Val(t.shortId), spiderX := Val(t.spiderX));
      if Val(t.password) != "" {
        c := c.(publicKey := Val(t.password));
      }
    }
    return Applied(c);
  }

  /** The security first, then the transport; the first that fails decides. */
  method ApplyXrayStream(s: Stream, flow: string, encryption: string) returns (r: Applied<Options>)
    ensures r == ReadStream(s, flow, encryption)
  {
    if s.masked {
      return Unsupported;
    }
    var network := Val(s.network);
    if network == "raw" {
      network := "tcp";
    } else if network == "splithttp" {
      network := "xhttp";
    }
    var t, security := ParseTransport(network), ParseSecurity(Val(s.security));
    if t.None? || security.None? {
      return Invalid;
    }
    var tls := ApplyTls(s, security.value);
    if !tls.Applied? {
      return if tls.Unsupported? then Unsupported else Invalid;
    }
    var net := ApplyNet(s.sections, t.value);
    if !net.Applied? {
      return if net.Unsupported? then Unsupported else Invalid;
    }
    return Applied(Options(flow, encryption, tls.value, net.value));
  }

  // ---------------------------------------------------------------- reading an outbound

  /** What became of the users of an outbound. */
  datatype Nodes = Complex | Nodes(configs: seq<Config>, invalid: nat)

  function Plus(a: Nodes, b: Nodes): Nodes {
    if a.Complex? || b.Complex? then Complex else Nodes(a.configs + b.configs, a.invalid + b.invalid)
  }

  predicate Reachable(e: Endpoint) {
    Trim(Val(e.address), Space) != "" && e.port.Some? && 1 <= e.port.value <= 65535 && e.users != []
  }

  function UserNode(base: Options, remark: string, address: string, port: nat, u: User): Nodes {
    var o := base.(flow := Val(u.flow), encryption := OrDefault(Val(u.encryption), "none"));
    if u.reverse then Complex
    else if Trim(Val(u.id), Space) == "" || !RealityFits(o) || !FlowFits(o) then Nodes([], 1)
    else Nodes([Config(address, port, Val(u.id), remark, o)], 0)
  }

  function UserNodes(base: Options, remark: string, address: string, port: nat, l: seq<User>): Nodes {
    if l == [] then Nodes([], 0)
    else Plus(UserNodes(base, remark, address, port, l[..|l| - 1]), UserNode(base, remark, address, port, l[|l| - 1]))
  }

  function EndpointNode(base: Options, remark: string, e: Endpoint): Nodes {
    if Reachable(e) then UserNodes(base, remark, Trim(Val(e.address), Space), e.port.value, e.users) else Nodes([], 1)
  }

  function EndpointNodes(base: Options, remark: string, l: seq<Endpoint>): Nodes {
    if l == [] then Nodes([], 0)
    else Plus(EndpointNodes(base, remark, l[..|l| - 1]), EndpointNode(base, remark, l[|l| - 1]))
  }

  /** A flat endpoint takes the place of the list. */
  function Endpoints(s: Settings): seq<Endpoint> {
    if s.BadSettings? then []
    else if s.flat.Some? && Val(s.flat.value.address) != "" then [s.flat.value]
    else s.vnext
  }

  function OutboundNodes(out: Outbound): Nodes {
    var base := ReadStream(out.stream, "", "none");
    if out.chained || out.stream.dialerProxy then Complex
    else if Endpoints(out.settings) == [] then Nodes([], 1)
    else match base
      case Unsupported => Complex
      case Invalid => Nodes([], 1)
      case Applied(o) => EndpointNodes(o, Trim(Val(out.tag), Space), Endpoints(out.settings))
  }

  method ParseUser(base: Options, remark: string, address: string, port: nat, u: User) returns (r: Nodes)
    ensures r == UserNode(base, remark, address, port, u)
  {
    if u.reverse {
      return Complex;
    }
    if Trim(Val(u.id), Space) == "" {
      return Nodes([], 1);
    }
    var o := base.(flow := Val(u.flow), encryption := "none");
    if Val(u.encryption) != "" {
      o := o.(encryption := Val(u.encryption));
    }
    var normal, _ := Normalize(o);
    if normal.Err? || normal.value.flow != Val(u.flow) {
      return Nodes([], 1);
    }
    return Nodes([Config(address, port, Val(u.id), remark, o)], 0);
  }

  method ParseUsers(base: Options, remark: string, address: string, port: nat, l: seq<User>) returns (r: Nodes)
    ensures r == UserNodes(base, remark, address, port, l)
  {
    r := Nodes([], 0);
    for i := 0 to |l|
      invariant r == UserNodes(base, remark, address, port, l[..i])
    {
      assert l[..i + 1][..i] == l[..i];
      var node := ParseUser(base, remark, address, port, l[i]);
      r := Plus(r, node);
    }
    assert l[..|l|] == l;
  }

  method ParseXrayOutbound(out: Outbound) returns (r: Nodes)
    ensures r == OutboundNodes(out)
  {
    if out.chained || out.stream.dialerProxy {
      return Complex;
    }
    var l := Endpoints(out.settings);
    if l == [] {
      return Nodes([], 1);
    }
    var base := ApplyXrayStream(out.stream, "", "none");
    if base.Unsupported? {
      return Complex;
    }
    if base.Invalid? {
      return Nodes([], 1);
    }
    var remark := Trim(Val(out.tag), Space);
    r := Nodes([], 0);
    for i := 0 to |l|
      invariant r == EndpointNodes(base.value, remark, l[..i])
    {
      assert l[..i + 1][..i] == l[..i];
      var node := Nodes([], 1);
      if Reachable(l[i]) {
        node := ParseUsers(base.value, remark, Trim(Val(l[i].address), Space), l[i].port.value, l[i].users);
      }
      r := Plus(r, node);
    }
    assert l[..|l|] == l;
  }

  // ---------------------------------------------------------------- there and back

  /** What a configuration comes back as. */
  function Settled(c: Config): Config {
    var t, n := c.opts.tls, c.opts.net;
    var tls := match t.security
      case NoSecurity => NoTls(NoSecurity)
      case TLS => NoTls(TLS).(sni := OrDefault(t.sni, c.address), alpn := t.alpn, fingerprint := t.fingerprint,
                              allowInsecure := t.allowInsecure)
      case Reality => t.(alpn := [], allowInsecure := false);
    var net := match n.transport
      case TCP => Blank(TCP).(headerType := if n.headerType == "http" then "http" else "")
      case GRPC => Blank(GRPC).(grpcServiceName := n.grpcServiceName, grpcMode := if n.grpcMode == "multi" then "multi" else "")
      case MKCP => Blank(MKCP).(seed := n.seed, headerType := OrDefault(n.headerType, "none"))
      case QUIC => Blank(QUIC).(quicSec := n.quicSec, quicKey := n.quicKey, headerType := OrDefault(n.headerType, "none"))
      case XHTTP => Blank(XHTTP).(path := n.path, wsHost := n.wsHost, xhttpMode := n.xhttpMode)
      case _ => Blank(n.transport).(path := n.path, wsHost := n.wsHost);
    Config(c.address, c.port, c.uuid, "proxy", Options(c.opts.flow, OrDefault(c.opts.encryption, "none"), tls, net))
  }

  /** The configurations that can be written out: those the compatibility rules leave as they are, with an address,
      a port and a user. */
  predicate Exportable(c: Config) {
    && RealityFits(c.opts) && FlowFits(c.opts)
    && c.address != "" && Trimmed(c.address, Space) && 1 <= c.port <= 65535 && Trim(c.uuid, Space) != ""
  }

  lemma NetworkNameIs(t: Transport)
    ensures ParseTransport(NetworkName(TransportName(t))) == Some(t)
  {}

  lemma TlsComesBack(c: Config)
    ensures ReadTls(StreamOf(c), c.opts.tls.security) == Applied(Settled(c).opts.tls)
  {}

  lemma NetComesBack(c: Config)
    ensures ReadNet(Section(c.opts.net), c.opts.net.transport) == Applied(Settled(c).opts.net)
  {
    var h := [("Host", c.opts.net.wsHost)];
    assert h[1..] == [] && IsHost("Host");
    assert HostFrom(h, "") == HostFrom([], c.opts.net.wsHost);
  }

  lemma StreamComesBack(c: Config, flow: string, encryption: string)
    ensures ReadStream(StreamOf(c), flow, encryption) == Applied(Options(flow, encryption, Settled(c).opts.tls, Settled(c).opts.net))
  {
    NetworkNameIs(c.opts.net.transport);
    SecurityRoundTrip(c.opts.tls.security);
    TlsComesBack(c);
    NetComesBack(c);
  }

  /** Settling changes nothing that the compatibility rules look at. */
  lemma SettledFits(c: Config)
    ensures RealityFits(Settled(c).opts) == RealityFits(c.opts) && FlowFits(Settled(c).opts) == FlowFits(c.opts)
  {}

  lemma OneUser(base: Options, remark: string, address: string, port: nat, u: User)
    ensures UserNodes(base, remark, address, port, [u]) == UserNode(base, remark, address, port, u)
  {}

  lemma OneEndpoint(base: Options, remark: string, e: Endpoint)
    ensures EndpointNodes(base, remark, [e]) == EndpointNode(base, remark, e)
  {}

  /** What the parser makes of a generated outbound. */
  lemma GeneratedIsRead(c: Config)
    ensures var address := Trim(c.address, Space);
            OutboundNodes(OutboundOf(c, "")) ==
            if address != "" && 1 <= c.port <= 65535 && Trim(c.uuid, Space) != "" && RealityFits(c.opts) && FlowFits(c.opts)
            then Nodes([Settled(c).(address := address)], 0) else Nodes([], 1)
  {
    var out := OutboundOf(c, "");
    var base := Options("", "none", Settled(c).opts.tls, Settled(c).opts.net);
    StreamComesBack(c, "", "none");
    SettledFits(c);
    var e := out.settings.vnext[0];
    assert out.settings.vnext == [e];
    assert Trim("proxy", Space) == "proxy";
    OneEndpoint(base, "proxy", e);
    OneUser(base, "proxy", Trim(c.address, Space), c.port, e.users[0]);
  }

  /** The generated outbound of a settled configuration is the one it was read from. */
  lemma SettledBuildsTheSame(c: Config)
    requires c.address != ""
    ensures OutboundOf(Settled(c), "") == OutboundOf(c, "")
  {}

  /** The parser reads exactly one configuration with the same outbound back exactly when the configuration can be
      written out. */
  lemma XrayRoundTrip(c: Config)
    ensures (exists d :: OutboundNodes(OutboundOf(c, "")) == Nodes([d], 0) && OutboundOf(d, "") == OutboundOf(c, "")) ==
            Exportable(c)
  {
    GeneratedIsRead(c);
    var d := Settled(c).(address := Trim(c.address, Space));
    if Exportable(c) {
      SettledBuildsTheSame(c);
      assert OutboundNodes(OutboundOf(c, "")) == Nodes([d], 0);
    } else if OutboundNodes(OutboundOf(c, "")) == Nodes([d], 0) {
      assert d.address != c.address;
    }
  }

  /** What comes back from one trip. */
  lemma XrayReadsBack(c: Config)
    requires Exportable(c)
    ensures OutboundNodes(OutboundOf(c, "")) == Nodes([Settled(c)], 0)
  {
    GeneratedIsRead(c);
  }

  /** One trip reaches a fixed point: what came back comes back again as itself. */
  lemma XrayFixedPoint(c: Config)
    requires Exportable(c)
    ensures OutboundNodes(OutboundOf(Settled(c), "")) == Nodes([Settled(c)], 0)
  {
    XrayReadsBack(c);
    SettledBuildsTheSame(c);
  }

  // ---------------------------------------------------------------- whatever is read can be written

  ghost predicate AllExportable(n: Nodes) {
    n.Nodes? ==> forall i :: 0 <= i < |n.configs| ==> Exportable(n.configs[i])
  }

  lemma PlusExportable(a: Nodes, b: Nodes)
    requires AllExportable(a) && AllExportable(b)
    ensures AllExportable(Plus(a, b))
  {}

  lemma {:induction false} UsersExportable(base: Options, remark: string, address: string, port: nat, l: seq<User>)
    requires address != "" && Trimmed(address, Space) && 1 <= port <= 65535
    ensures AllExportable(UserNodes(base, remark, address, port, l))
  {
    if l != [] {
      UsersExportable(base, remark, address, port, l[..|l| - 1]);
      PlusExportable(UserNodes(base, remark, address, port, l[..|l| - 1]), UserNode(base, remark, address, port, l[|l| - 1]));
    }
  }

  lemma {:induction false} EndpointsExportable(base: Options, remark: string, l: seq<Endpoint>)
    ensures AllExportable(EndpointNodes(base, remark, l))
  {
    if l != [] {
      var init, e := l[..|l| - 1], l[|l| - 1];
      EndpointsExportable(base, remark, init);
      if Reachable(e) {
        UsersExportable(base, remark, Trim(Val(e.address), Space), e.port.value, e.users);
      }
      PlusExportable(EndpointNodes(base, remark, init), EndpointNode(base, remark, e));
    }
  }

  /** Every configuration read from any outbound can be written out again. */
  lemma ReadIsExportable(out: Outbound)
    ensures AllExportable(OutboundNodes(out))
  {
    var base := ReadStream(out.stream, "", "none");
    if base.Applied? {
      EndpointsExportable(base.value, Trim(Val(out.tag), Space), Endpoints(out.settings));
    }
  }

  // ---------------------------------------------------------------- spellings and counts

  /** The two other names of networks, the password that stands for a Reality key, and the sections that stand in for
      others: raw before tcp, splithttp after xhttp, and one host header for a missing host. */
  lemma OtherSpellings(s: Stream, flow: string, encryption: string)
    requires ReadStream(s, flow, encryption).Applied?
    ensures var o, x := ReadStream(s, flow, encryption).value, s.sections;
            && (Val(s.network) == "raw" || Val(s.network) == "" ==> o.net.transport == TCP)
            && (Val(s.network) == "splithttp" ==> o.net.transport == XHTTP)
            && (o.tls.security == Reality && s.reality.Some? && Val(s.reality.value.password) != "" ==>
                  o.tls.publicKey == Val(s.reality.value.password))
            && (o.tls.security == Reality && s.reality.Some? && Val(s.reality.value.password) == "" ==>
                  o.tls.publicKey == Val(s.reality.value.publicKey))
            && (o.net.transport == TCP ==> o.net.headerType == Kind(if x.raw.Some? then x.raw else x.tcp))
            && (o.net.transport == XHTTP && x.xhttp.None? && x.splithttp.Some? ==> o.net.path == Val(x.splithttp.value.path))
            && (o.net.transport == XHTTP && x.xhttp.Some? ==> o.net.path == Val(x.xhttp.value.path))
  {
    assert |"splithttp"| == 9 && |"raw"| == 3;
  }

  lemma HostHeader(h: HttpSettings, value: string)
    requires Val(h.host) == "" && h.headers == [("host", value)]
    ensures HostFrom(h.headers, Val(h.host)) == Some(value)
  {
    assert SameFolded("host", "Host");
    assert h.headers[1..] == [];
  }

  /** How many users an endpoint stands for; one that cannot be reached counts once. */
  function Users(l: seq<Endpoint>): nat {
    if l == [] then 0 else Users(l[..|l| - 1]) + if Reachable(l[|l| - 1]) then |l[|l| - 1].users| else 1
  }

  lemma UserAccounted(base: Options, remark: string, address: string, port: nat, u: User)
    ensures var n := UserNode(base, remark, address, port, u); n.Complex? == u.reverse && (n.Nodes? ==> |n.configs| + n.invalid == 1)
  {}

  lemma {:induction false} UsersAccounted(base: Options, remark: string, address: string, port: nat, l: seq<User>)
    ensures var n := UserNodes(base, remark, address, port, l); n.Nodes? ==> |n.configs| + n.invalid == |l|
    ensures UserNodes(base, remark, address, port, l).Complex? == exists u :: u in l && u.reverse
  {
    if l != [] {
      var init, last := l[..|l| - 1], l[|l| - 1];
      UsersAccounted(base, remark, address, port, init);
      UserAccounted(base, remark, address, port, last);
      assert l == init + [last];
    }
  }

  /** Every user of every endpoint is read or counted as invalid, unless the whole outbound is set aside. */
  lemma {:induction false} EndpointsAccounted(base: Options, remark: string, l: seq<Endpoint>)
    ensures var n := EndpointNodes(base, remark, l); n.Nodes? ==> |n.configs| + n.invalid == Users(l)
  {
    if l != [] {
      var e := l[|l| - 1];
      EndpointsAccounted(base, remark, l[..|l| - 1]);
      if Reachable(e) {
        UsersAccounted(base, remark, Trim(Val(e.address), Space), e.port.value, e.users);
      }
    }
  }

  /** A resolved address replaces the one that is dialled and nothing else, so the server name stays. */
  lemma ResolvedAddressIsDialled(c: Config, ip: string)
    requires ip != ""
    ensures var out, plain := OutboundOf(c, ip), OutboundOf(c, "");
            && out.stream == plain.stream && out.tag == plain.tag && out.chained == plain.chained
            && out.settings == Settings([plain.settings.vnext[0].(address := Some(ip))], None)
  {}

  // ---------------------------------------------------------------- what is set aside

  /** A header that is no host header. */
  ghost predicate ForeignHeader(h: HttpSettings) { exists i :: 0 <= i < |h.headers| && !IsHost(h.headers[i].0) }

  lemma {:induction false} HostFromExactly(headers: seq<(string, string)>, host: string)
    ensures HostFrom(headers, host).None? == exists i :: 0 <= i < |headers| && !IsHost(headers[i].0)
    ensures HostFrom(headers, host).Some? && host != "" ==> HostFrom(headers, host).value == host
  {
    if headers != [] {
      var rest := headers[1..];
      HostFromExactly(rest, if host == "" then headers[0].1 else host);
      if i :| 0 <= i < |rest| && !IsHost(rest[i].0) {
        assert !IsHost(headers[i + 1].0);
      }
      if i :| 0 < i < |headers| && !IsHost(headers[i].0) {
        assert !IsHost(rest[i - 1].0);
      }
    }
  }

  /** The features of a transport section that are not supported. */
  ghost predicate UnsupportedNet(x: Sections, t: Transport) {
    match t
    case TCP => var tcp := if x.raw.Some? then x.raw else x.tcp; tcp.Some? && tcp.value.request
    case WS => x.ws.Some? && ForeignHeader(x.ws.value)
    case HTTPUpgrade => x.httpupgrade.Some? && ForeignHeader(x.httpupgrade.value)
    case XHTTP =>
      var h := if x.xhttp.Some? then x.xhttp else x.splithttp;
      h.Some? && (h.value.unsupported || h.value.extra.UnsupportedExtra? || h.value.extra.HeadersExtra? ||
                  (!h.value.extra.BadExtra? && ForeignHeader(h.value)))
    case GRPC => x.grpc.Some? && Val(x.grpc.value.authority) != ""
    case MKCP => false
    case QUIC => false
  }

  lemma NetUnsupportedExactly(x: Sections, t: Transport)
    ensures ReadNet(x, t).Unsupported? == UnsupportedNet(x, t)
  {
    if x.ws.Some? { HostFromExactly(x.ws.value.headers, Val(x.ws.value.host)); }
    if x.httpupgrade.Some? { HostFromExactly(x.httpupgrade.value.headers, Val(x.httpupgrade.value.host)); }
    if x.xhttp.Some? { HostFromExactly(x.xhttp.value.headers, Val(x.xhttp.value.host)); }
    if x.splithttp.Some? { HostFromExactly(x.splithttp.value.headers, Val(x.splithttp.value.host)); }
  }

  /** The features of the security sections that are not supported. */
  predicate UnsupportedTls(s: Stream, security: Security) {
    || (security == TLS && s.tls.Some? && s.tls.value.pinned)
    || (security == Reality && s.reality.Some? && Val(s.reality.value.mldsa65Verify) != "")
  }

  /** A stream is set aside exactly for a mask, for pinned certificates or their kind, or for a feature of its transport,
      provided it names a transport and a security that are known. */
  lemma StreamSetAsideExactly(s: Stream, flow: string, encryption: string)
    ensures ReadStream(s, flow, encryption).Unsupported? ==
            (s.masked ||
             (var t, security := ParseTransport(NetworkName(Val(s.network))), ParseSecurity(Val(s.security));
              t.Some? && security.Some? && (UnsupportedTls(s, security.value) || UnsupportedNet(s.sections, t.value))))
  {
    var t := ParseTransport(NetworkName(Val(s.network)));
    if t.Some? {
      NetUnsupportedExactly(s.sections, t.value);
    }
  }

  lemma {:induction false} EndpointsSetAside(base: Options, remark: string, l: seq<Endpoint>)
    ensures EndpointNodes(base, remark, l).Complex? == exists e, u :: e in l && Reachable(e) && u in e.users && u.reverse
  {
    if l != [] {
      var init, e := l[..|l| - 1], l[|l| - 1];
      EndpointsSetAside(base, remark, init);
      assert l == init + [e];
      if Reachable(e) {
        UsersAccounted(base, remark, Trim(Val(e.address), Space), e.port.value, e.users);
      }
    }
  }

  /** An outbound is set aside exactly when it goes through another one, when it has endpoints but its stream is set
      aside, or when its stream is understood and a user of an endpoint that can be reached is for a reverse proxy. */
  lemma SetAsideExactly(out: Outbound)
    ensures var base, l := ReadStream(out.stream, "", "none"), Endpoints(out.settings);
            OutboundNodes(out).Complex? ==
            (|| out.chained || out.stream.dialerProxy || (l != [] && base.Unsupported?)
             || (base.Applied? && exists e, u :: e in l && Reachable(e) && u in e.users && u.reverse))
  {
    var base := ReadStream(out.stream, "", "none");
    if base.Applied? {
      EndpointsSetAside(base.value, Trim(Val(out.tag), Space), Endpoints(out.settings));
    }
  }
}

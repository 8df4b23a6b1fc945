/** The vless:// share link: printing a configuration, parsing it back, and when the two undo each other. */
module VlessUrl {
  import opened Base
  import opened Text
  import opened Vless

  /** The query parameters of a link, by name. One that is absent reads as empty, so it is modelled as empty. */
  datatype SecurityQuery = SecurityQuery(
    security: string, sni: string, alpn: string, fp: string, allowInsecure: string, pbk: string, sid: string, spx: string)

  datatype TypeQuery = TypeQuery(
    kind: string, path: string, host: string, serviceName: string, mode: string, headerType: string, seed: string,
    quicSecurity: string, key: string)

  datatype Query = Query(flow: string, encryption: string, sec: SecurityQuery, net: TypeQuery)

  /** A link after the library took it apart; the host still carries the port. */
  datatype Url = Url(user: Option<string>, host: string, query: Query, fragment: string)

  // ---------------------------------------------------------------- host and port

  function LastIndex(s: string, c: char): (r: Option<nat>)
    ensures r.None? ==> c !in s
    ensures r.Some? ==> r.value < |s| && s[r.value] == c && c !in s[r.value + 1..]
  {
    if s == "" then None
    else if s[|s| - 1] == c then Some(|s| - 1)
    else
      var r := LastIndex(s[..|s| - 1], c);
      assert s == s[..|s| - 1] + [s[|s| - 1]];
      if r.Some? then assert s[r.value + 1..] == s[..|s| - 1][r.value + 1..] + [s[|s| - 1]]; r else r
  }

  /** Nothing, or a colon and digits. */
  predicate OptionalPort(s: string) { s == "" || (s[0] == ':' && (s[1..] == "" || AllDigits(s[1..]))) }

  function PortOf(s: string): string { if s == "" then "" else s[1..] }

  /** ASCII characters that stand for themselves in a host. */
  predicate HostChar(c: char) {
    || 'a' <= c <= 'z' || 'A' <= c <= 'Z' || Digit(c)
    || c == '-' || c == '_' || c == '.' || c == '~'
    || c == '!' || c == '$' || '&' <= c <= ',' || c == ';' || c == '='
    || c == ':' || c == '[' || c == ']' || c == '<' || c == '>' || c == '"'
  }

  /** ASCII characters that would have to be percent-encoded in a host, where only other characters and the percent
      sign itself may be. A host with one of them is printed, but not accepted. */
  predicate Unprintable(c: char) { c < '\U{0080}' && !HostChar(c) && c != '%' }

  predicate Printable(h: string) { forall i :: 0 <= i < |h| ==> !Unprintable(h[i]) }

  /** Brackets hold an IPv6 literal, which has colons; no other host name does. */
  function SplitHost(h: string): Option<(string, string)> {
    if '[' in h then
      var end := LastIndex(h, ']');
      if h[0] == '[' && end.Some? && end.value > 0 && ':' in h[1..end.value] && OptionalPort(h[end.value + 1..])
      then Some((h[1..end.value], PortOf(h[end.value + 1..]))) else None
    else if !Printable(h) then None
    else SplitName(h)
  }

  /** At most one colon, and digits after it. */
  function SplitName(h: string): Option<(string, string)> {
    var colon := LastIndex(h, ':');
    if colon.None? then Some((h, ""))
    else if OptionalPort(h[colon.value..]) && ':' !in h[..colon.value]
    then Some((h[..colon.value], h[colon.value + 1..])) else None
  }

  lemma LastIndexIs(s: string, c: char, n: nat)
    requires n < |s| && s[n] == c && c !in s[n + 1..]
    ensures LastIndex(s, c) == Some(n)
  {}

  lemma DecimalHasNo(n: nat, c: char)
    requires !Digit(c)
    ensures c !in Decimal(n)
  {}

  lemma PrintedIsPrintable(address: string, port: nat)
    ensures Printable(address + ":" + Decimal(port)) == Printable(address)
  {
    var d := Decimal(port);
    var h := address + ":" + d;
    ValueOfDecimal(port);
    assert forall i :: 0 <= i < |address| ==> h[i] == address[i];
    assert HostChar(':');
    forall i | |address| <= i < |h| ensures !Unprintable(h[i]) {
      assert i == |address| || Digit(h[i]);
    }
  }

  lemma NameSplits(h: string, address: string, d: string)
    requires |h| == |address| + 1 + |d| && h[..|address|] == address && h[|address|] == ':' && h[|address| + 1..] == d
    requires AllDigits(d)
    ensures SplitName(h) == if ':' in address then None else Some((address, d))
  {
    var rest := h[|address|..];
    assert rest[0] == ':' && rest[1..] == d;
    LastIndexIs(h, ':', |address|);
  }

  lemma NameOfPrinted(address: string, port: nat)
    ensures SplitName(address + ":" + Decimal(port)) == if ':' in address then None else Some((address, Decimal(port)))
  {
    var h := address + ":" + Decimal(port);
    ValueOfDecimal(port);
    assert h[..|address|] == address && h[|address| + 1..] == Decimal(port);
    NameSplits(h, address, Decimal(port));
  }

  /** The host as it is printed is taken apart where it was put together, unless the address holds a colon or a
      character that cannot be printed. */
  lemma SplitPrinted(address: string, port: nat)
    requires '[' !in address
    ensures SplitHost(address + ":" + Decimal(port)) ==
            if ':' in address || !Printable(address) then None else Some((address, Decimal(port)))
  {
    DecimalHasNo(port, '[');
    PrintedIsPrintable(address, port);
    NameOfPrinted(address, port);
  }

  // ---------------------------------------------------------------- comma-separated lists

  predicate CleanField(f: string) { f != "" && Trimmed(f, Space) && ',' !in f }

  /** The fields that are not blank, trimmed. */
  function Fields(parts: seq<string>): seq<string> {
    if parts == [] then []
    else
      var p := Trim(parts[|parts| - 1], Space);
      Fields(parts[..|parts| - 1]) + if p == "" then [] else [p]
  }

  lemma FieldsSnoc(parts: seq<string>, part: string)
    ensures var p := Trim(part, Space); Fields(parts + [part]) == Fields(parts) + if p == "" then [] else [p]
  {
    assert (parts + [part])[..|parts|] == parts;
  }

  method SplitCSV(s: string) returns (out: seq<string>)
    ensures out == Fields(Split(s, ','))
  {
    var parts := Split(s, ',');
    out := [];
    for i := 0 to |parts|
      invariant out == Fields(parts[..i])
    {
      assert parts[..i + 1] == parts[..i] + [parts[i]];
      FieldsSnoc(parts[..i], parts[i]);
      var p := Trim(parts[i], Space);
      if p != "" {
        out := out + [p];
      }
    }
    assert parts[..|parts|] == parts;
  }

  lemma {:induction false} FieldsOfClean(l: seq<string>)
    requires forall i :: 0 <= i < |l| ==> CleanField(l[i])
    ensures Fields(l) == l
  {
    if l != [] {
      var init, last := l[..|l| - 1], l[|l| - 1];
      FieldsOfClean(init);
      FieldsSnoc(init, last);
      assert CleanField(last) && l == init + [last];
    }
  }

  lemma {:induction false} FieldsAreClean(parts: seq<string>)
    requires forall i :: 0 <= i < |parts| ==> ',' !in parts[i]
    ensures forall i :: 0 <= i < |Fields(parts)| ==> CleanField(Fields(parts)[i])
  {
    if parts != [] {
      FieldsAreClean(parts[..|parts| - 1]);
      TrimKeepsOut(parts[|parts| - 1], Space, ',');
    }
  }

  lemma ListRoundTrip(l: seq<string>)
    requires forall i :: 0 <= i < |l| ==> CleanField(l[i])
    ensures l != [] ==> |Join(l, ',')| > 0 && Fields(Split(Join(l, ','), ',')) == l
  {
    if l != [] {
      SplitJoin(l, ',');
      FieldsOfClean(l);
      assert CleanField(l[0]);
    }
  }

  // ---------------------------------------------------------------- printing

  predicate HasPath(t: Transport) { t == WS || t == HTTPUpgrade || t == XHTTP }

  /** Parameters of Reality are sent under Reality only. */
  function QueryOfTls(t: Tls): SecurityQuery {
    var r := t.security == Reality;
    SecurityQuery(SecurityName(t.security), t.sni, Join(t.alpn, ','), t.fingerprint, if t.allowInsecure then "1" else "",
                  if r then t.publicKey else "", if r then t.shortId else "", if r then t.spiderX else "")
  }

  /** Each transport sends its own parameters. */
  function QueryOfNet(n: Net): TypeQuery {
    var t := n.transport;
    TypeQuery(TransportName(t), if HasPath(t) then n.path else "", if HasPath(t) then n.wsHost else "",
              if t == GRPC then n.grpcServiceName else "",
              if t == GRPC then n.grpcMode else if t == XHTTP then n.xhttpMode else "",
              if t == TCP || t == MKCP then n.headerType else "", if t == MKCP then n.seed else "",
              if t == QUIC then n.quicSec else "", if t == QUIC then n.quicKey else "")
  }

  function UrlOf(c: Config): Url {
    var o := c.opts;
    Url(Some(c.uuid), c.address + ":" + Decimal(c.port),
        Query(o.flow, o.encryption, QueryOfTls(o.tls), QueryOfNet(o.net)), c.remark)
  }

  method PutTls(t: Tls) returns (q: SecurityQuery)
    ensures q == QueryOfTls(t)
  {
    q := SecurityQuery(SecurityName(t.security), "", "", "", "", "", "", "");
    if t.sni != "" {
      q := q.(sni := t.sni);
    }
    if |t.alpn| > 0 {
      q := q.(alpn := Join(t.alpn, ','));
    }
    if t.fingerprint != "" {
      q := q.(fp := t.fingerprint);
    }
    if t.allowInsecure {
      q := q.(allowInsecure := "1");
    }
    if t.security == Reality {
      if t.publicKey != "" {
        q := q.(pbk := t.publicKey);
      }
      if t.shortId != "" {
        q := q.(sid := t.shortId);
      }
      if t.spiderX != "" {
        q := q.(spx := t.spiderX);
      }
    }
  }

  method PutNet(n: Net) returns (q: TypeQuery)
    ensures q == QueryOfNet(n)
  {
    q := TypeQuery(TransportName(n.transport), "", "", "", "", "", "", "", "");
    match n.transport
    case WS =>
      q := q.(path := n.path, host := n.wsHost);
    case HTTPUpgrade =>
      q := q.(path := n.path, host := n.wsHost);
    case GRPC =>
      q := q.(serviceName := n.grpcServiceName, mode := n.grpcMode);
    case XHTTP =>
      q := q.(path := n.path, mode := n.xhttpMode, host := n.wsHost);
    case TCP =>
      q := q.(headerType := n.headerType);
    case MKCP =>
      q := q.(headerType := n.headerType, seed := n.seed);
    case QUIC =>
      q := q.(quicSecurity := n.quicSec, key := n.quicKey);
  }

  method ToUrl(c: Config) returns (u: Url)
    ensures u == UrlOf(c)
  {
    var sec := PutTls(c.opts.tls);
    var net := PutNet(c.opts.net);
    u := Url(Some(c.uuid), c.address + ":" + Decimal(c.port), Query(c.opts.flow, c.opts.encryption, sec, net), c.remark);
  }

  // ---------------------------------------------------------------- parsing

  predicate True(v: string) { v == "1" || SameFolded(v, "true") }

  function ReadList(s: string): seq<string> { if s == "" then [] else Fields(Split(s, ',')) }

  function ReadTls(q: SecurityQuery, s: Security): Tls {
    var r := s == Reality;
    Tls(s, q.sni, ReadList(q.alpn), q.fp, True(q.allowInsecure),
        if r then q.pbk else "", if r then q.sid else "", if r then q.spx else "")
  }

  function ReadNet(q: TypeQuery, t: Transport): Net {
    Net(t, if HasPath(t) then q.path else "", if HasPath(t) then q.host else "",
        if t == GRPC then q.serviceName else "", if t == GRPC then q.mode else "", if t == XHTTP then q.mode else "",
        if t == TCP || t == MKCP then q.headerType else "", if t == MKCP then q.seed else "",
        if t == QUIC then q.quicSecurity else "", if t == QUIC then q.key else "")
  }

  /** The place a host text names, if it names one with a port. */
  function Place(host: string): Option<(string, nat)> {
    var h := SplitHost(host);
    if h.None? || h.value.0 == "" || h.value.1 == "" || !(1 <= Value(h.value.1) <= 65535) then None
    else Some((h.value.0, Value(h.value.1)))
  }

  function Parsed(u: Url): Result<Config> {
    var place := Place(u.host);
    var s, t := ParseSecurity(u.query.sec.security), ParseTransport(u.query.net.kind);
    if u.user == None || u.user.value == "" || place.None? || s.None? || t.None? then Err
    else Ok(Config(place.value.0, place.value.1, u.user.value, u.fragment,
                   Options(u.query.flow, OrDefault(u.query.encryption, "none"),
                           ReadTls(u.query.sec, s.value), ReadNet(u.query.net, t.value))))
  }

  method FillTls(q: SecurityQuery, s: Security) returns (o: Tls)
    ensures o == ReadTls(q, s)
  {
    o := Tls(s, q.sni, [], q.fp, false, "", "", "");
    if q.alpn != "" {
      var alpn := SplitCSV(q.alpn);
      o := o.(alpn := alpn);
    }
    if True(q.allowInsecure) {
      o := o.(allowInsecure := true);
    }
    if s == Reality {
      o := o.(publicKey := q.pbk, shortId := q.sid, spiderX := q.spx);
    }
  }

  method FillNet(q: TypeQuery, t: Transport) returns (o: Net)
    ensures o == ReadNet(q, t)
  {
    o := Net(t, "", "", "", "", "", "", "", "", "");
    match t
    case WS => o := o.(path := q.path, wsHost := q.host);
    case HTTPUpgrade => o := o.(path := q.path, wsHost := q.host);
    case GRPC => o := o.(grpcServiceName := q.serviceName, grpcMode := q.mode);
    case XHTTP => o := o.(path := q.path, xhttpMode := q.mode, wsHost := q.host);
    case TCP => o := o.(headerType := q.headerType);
    case MKCP => o := o.(headerType := q.headerType, seed := q.seed);
    case QUIC => o := o.(quicSec := q.quicSecurity, quicKey := q.key);
  }

  method ParseURL(u: Url) returns (r: Result<Config>)
    ensures r == Parsed(u)
  {
    if u.user == None || u.user.value == "" {
      return Err;
    }
    var place := Place(u.host);
    if place.None? {
      return Err;
    }
    var s := ParseSecurity(u.query.sec.security);
    if s.None? {
      return Err;
    }
    var t := ParseTransport(u.query.net.kind);
    if t.None? {
      return Err;
    }
    var tls := FillTls(u.query.sec, s.value);
    var net := FillNet(u.query.net, t.value);
    var o := Options(u.query.flow, OrDefault(u.query.encryption, "none"), tls, net);
    return Ok(Config(place.value.0, place.value.1, u.user.value, u.fragment, o));
  }

  // ---------------------------------------------------------------- round trips

  /** Only fields that the security uses are set, and the list has no blanks, commas or space around an entry. */
  predicate CanonicalTls(t: Tls) {
    && (forall i :: 0 <= i < |t.alpn| ==> CleanField(t.alpn[i]))
    && (t.security == Reality || (t.publicKey == "" && t.shortId == "" && t.spiderX == ""))
  }

  /** Only fields that the transport uses are set. */
  predicate CanonicalNet(n: Net) {
    var t := n.transport;
    && (HasPath(t) || (n.path == "" && n.wsHost == ""))
    && (t == GRPC || (n.grpcServiceName == "" && n.grpcMode == ""))
    && (t == XHTTP || n.xhttpMode == "")
    && (t == TCP || t == MKCP || n.headerType == "")
    && (t == MKCP || n.seed == "")
    && (t == QUIC || (n.quicSec == "" && n.quicKey == ""))
  }

  /** And the address is no IPv6 literal and has only characters that a host can have. */
  predicate Canonical(c: Config) {
    && c.address != "" && ':' !in c.address && '[' !in c.address && Printable(c.address) && 1 <= c.port <= 65535 && c.uuid != ""
    && c.opts.encryption != "" && CanonicalTls(c.opts.tls) && CanonicalNet(c.opts.net)
  }

  lemma TlsRoundTrip(t: Tls)
    requires CanonicalTls(t)
    ensures ReadTls(QueryOfTls(t), t.security) == t
  {
    ListRoundTrip(t.alpn);
    assert ReadList(Join(t.alpn, ',')) == t.alpn;
  }

  lemma NetRoundTrip(n: Net)
    requires CanonicalNet(n)
    ensures ReadNet(QueryOfNet(n), n.transport) == n
  {}

  lemma TlsIsCanonical(q: SecurityQuery, s: Security)
    ensures CanonicalTls(ReadTls(q, s))
  {
    FieldsAreClean(Split(q.alpn, ','));
  }

  lemma NetIsCanonical(q: TypeQuery, t: Transport)
    ensures CanonicalNet(ReadNet(q, t))
  {}

  lemma PlaceHasNoBracket(host: string)
    requires Place(host).Some?
    ensures var (name, port) := Place(host).value; name != "" && 1 <= port <= 65535 && (':' in name || ('[' !in name && Printable(name)))
  {}

  lemma LinkParsesBack(c: Config)
    requires Canonical(c)
    ensures Parsed(UrlOf(c)) == Ok(c)
  {
    SplitPrinted(c.address, c.port);
    ValueOfDecimal(c.port);
    assert Place(UrlOf(c).host) == Some((c.address, c.port));
    SecurityRoundTrip(c.opts.tls.security);
    TransportRoundTrip(c.opts.net.transport);
    TlsRoundTrip(c.opts.tls);
    NetRoundTrip(c.opts.net);
  }

  /** Every configuration the parser accepts is canonical, unless its address is an IPv6 literal. */
  lemma ParsedIsCanonical(u: Url)
    requires Parsed(u).Ok?
    ensures Canonical(Parsed(u).value) == (':' !in Parsed(u).value.address)
  {
    PlaceHasNoBracket(u.host);
    TlsIsCanonical(u.query.sec, ParseSecurity(u.query.sec.security).value);
    NetIsCanonical(u.query.net, ParseTransport(u.query.net.kind).value);
  }

  /** An address with a bracket, a colon or an unprintable character never comes back: it is refused, or loses its
      brackets. */
  lemma OddAddressIsLost(address: string, port: nat)
    requires ':' in address || '[' in address || !Printable(address)
    ensures var h := SplitHost(address + ":" + Decimal(port)); h.None? || h.value.0 != address
  {
    if '[' !in address {
      SplitPrinted(address, port);
    } else {
      var h := address + ":" + Decimal(port);
      DecimalHasNo(port, ']');
      assert ']' !in h[|address|..] by {
        assert h[|address|..] == ":" + Decimal(port);
      }
      assert LastIndex(h, ']').Some? ==> LastIndex(h, ']').value < |address|;
    }
  }

  /** The link of a configuration parses back to it exactly when the configuration is canonical. */
  lemma UrlRoundTrip(c: Config)
    ensures (Parsed(UrlOf(c)) == Ok(c)) == Canonical(c)
  {
    if Canonical(c) {
      LinkParsesBack(c);
    }
    if ':' in c.address || '[' in c.address || !Printable(c.address) {
      OddAddressIsLost(c.address, c.port);
    }
    if Parsed(UrlOf(c)) == Ok(c) {
      ParsedIsCanonical(UrlOf(c));
    }
  }

  /** Parsing, printing and parsing again loses nothing, unless the address is an IPv6 literal. */
  lemma ParsePrintParse(u: Url)
    requires Parsed(u).Ok?
    ensures (Parsed(UrlOf(Parsed(u).value)) == Parsed(u)) == (':' !in Parsed(u).value.address)
  {
    ParsedIsCanonical(u);
    UrlRoundTrip(Parsed(u).value);
  }

  /** What each parameter of an accepted link stands for. A missing security is none and a missing transport is TCP; the
      certificate check is off for 1 and for the word true in any case. */
  lemma ParameterMeanings(u: Url)
    requires Parsed(u).Ok?
    ensures var c, q := Parsed(u).value, u.query;
            && Some(c.uuid) == u.user && c.remark == u.fragment && c.opts.flow == q.flow
            && c.opts.encryption == (if q.encryption == "" then "none" else q.encryption)
            && c.opts.tls.sni == q.sec.sni && c.opts.tls.fingerprint == q.sec.fp
            && (q.sec.security == "" ==> c.opts.tls.security == NoSecurity)
            && (c.opts.tls.security == Reality ==>
                  c.opts.tls.publicKey == q.sec.pbk && c.opts.tls.shortId == q.sec.sid && c.opts.tls.spiderX == q.sec.spx)
            && c.opts.tls.allowInsecure == (q.sec.allowInsecure == "1" || SameFolded(q.sec.allowInsecure, "true"))
    ensures var n, q := Parsed(u).value.opts.net, u.query.net;
            && (q.kind == "" ==> n.transport == TCP) && (q.kind == "kcp" ==> n.transport == MKCP)
            && (n.transport == WS || n.transport == HTTPUpgrade || n.transport == XHTTP ==> n.path == q.path && n.wsHost == q.host)
            && (n.transport == XHTTP ==> n.xhttpMode == q.mode)
            && (n.transport == GRPC ==> n.grpcServiceName == q.serviceName && n.grpcMode == q.mode)
            && (n.transport == TCP || n.transport == MKCP ==> n.headerType == q.headerType) && (n.transport == MKCP ==> n.seed == q.seed)
            && (n.transport == QUIC ==> n.quicSec == q.quicSecurity && n.quicKey == q.key)
  {
    TransportsUnderstood(u.query.net.kind);
    SecuritiesUnderstood(u.query.sec.security);
  }

  /** A link is accepted exactly when it has a user, a host and a port, and says nothing unknown. */
  lemma AcceptedExactly(u: Url)
    ensures Parsed(u).Ok? ==
            (&& u.user.Some? && u.user.value != ""
             && SplitHost(u.host).Some? && SplitHost(u.host).value.0 != "" && SplitHost(u.host).value.1 != ""
             && 1 <= Value(SplitHost(u.host).value.1) <= 65535
             && (u.query.sec.security == "" || exists t: Security :: u.query.sec.security == SecurityName(t))
             && (u.query.net.kind == "" || u.query.net.kind == "kcp" || exists t: Transport :: u.query.net.kind == TransportName(t)))
  {
    TransportsUnderstood(u.query.net.kind);
    SecuritiesUnderstood(u.query.sec.security);
  }
}

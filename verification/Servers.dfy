/**
 The server list and its reconciliation with a freshly fetched subscription:
 identifiers are assigned so that known servers keep theirs and no two servers
 ever share one.

 The hashes are modelled as injective: an identifier is the tuple that is hashed. The prefix "sub-" keeps
 variant identifiers apart from endpoint identifiers.
 */
module Servers {
  import opened Base
  import opened Vless

  datatype Origin = Manual | Subscription

  datatype Id =
    | Endpoint(address: string, port: nat, uuid: string)
    | Variant(source: string, conn: Config, attempt: nat)
    | Named(text: string)

  datatype Server = Server(
    id: Id, origin: Origin, source: string, name: string, remark: string, vless: Config,
    tags: seq<string>, latency: Option<nat>, favorite: bool, disabled: bool)

  /** A connection is its configuration without the display remark. */
  function ConnectionID(c: Config): Config { c.(remark := "") }

  function StableID(c: Config): Id { Endpoint(c.address, c.port, c.uuid) }

  function Conn(s: Server): Config { ConnectionID(s.vless) }

  function Spot(s: Server): Id { StableID(s.vless) }

  predicate Own(s: Server, src: string) { s.origin == Subscription && s.source == src }

  function Ids(l: seq<Server>): set<Id> { set i | 0 <= i < |l| :: l[i].id }

  function Conns(l: seq<Server>): set<Config> { set i | 0 <= i < |l| :: Conn(l[i]) }

  predicate Distinct(l: seq<Server>) { forall i, j :: 0 <= i < j < |l| ==> l[i].id != l[j].id }

  // ---------------------------------------------------------------- free variant identifiers

  function Taken(src: string, conn: Config, reserved: set<Id>, n: nat): set<Id> {
    set id | id in reserved && id.Variant? && id.source == src && id.conn == conn && id.attempt >= n
  }

  lemma TakenShrinks(src: string, conn: Config, reserved: set<Id>, n: nat)
    requires Variant(src, conn, n) in reserved
    ensures |Taken(src, conn, reserved, n + 1)| < |Taken(src, conn, reserved, n)|
  {
    var more, less := Taken(src, conn, reserved, n), Taken(src, conn, reserved, n + 1);
    assert more == less + {Variant(src, conn, n)};
  }

  /** The first variant from attempt `n` on that is not reserved. The reserved set is finite, so there is one. */
  function FreeVariant(src: string, conn: Config, reserved: set<Id>, n: nat): (id: Id)
    ensures id !in reserved && id.Variant? && id.source == src && id.conn == conn && id.attempt >= n
    ensures forall m :: n <= m < id.attempt ==> Variant(src, conn, m) in reserved
    decreases |Taken(src, conn, reserved, n)|
  {
    if Variant(src, conn, n) !in reserved then Variant(src, conn, n)
    else
      TakenShrinks(src, conn, reserved, n);
      FreeVariant(src, conn, reserved, n + 1)
  }

  /** The search loop. */
  method AvailableVariantID(src: string, conn: Config, reserved: set<Id>) returns (id: Id)
    ensures id == FreeVariant(src, conn, reserved, 0)
  {
    var attempt := 0;
    id := Variant(src, conn, attempt);
    while id in reserved
      invariant id == Variant(src, conn, attempt)
      invariant FreeVariant(src, conn, reserved, 0) == FreeVariant(src, conn, reserved, attempt)
      decreases |Taken(src, conn, reserved, attempt)|
    {
      TakenShrinks(src, conn, reserved, attempt);
      attempt := attempt + 1;
      id := Variant(src, conn, attempt);
    }
  }

  // ---------------------------------------------------------------- reconciliation

  /** The incoming servers without repeats of a connection, in first-seen order. */
  function Unique(l: seq<Server>): seq<Server> {
    if l == [] then []
    else
      var u := Unique(l[..|l| - 1]);
      if Conn(l[|l| - 1]) in Conns(u) then u else u + [l[|l| - 1]]
  }

  /** How many of `l` sit at endpoint `e`. */
  function Count(l: seq<Server>, e: Id): nat {
    if l == [] then 0 else Count(l[..|l| - 1], e) + if Spot(l[|l| - 1]) == e then 1 else 0
  }

  /** The first known server of the source with this connection. */
  function OldByConnection(existing: seq<Server>, src: string, conn: Config): Option<Server> {
    if existing == [] then None
    else
      var r, s := OldByConnection(existing[..|existing| - 1], src, conn), existing[|existing| - 1];
      if r.Some? then r else if Own(s, src) && Conn(s) == conn then Some(s) else None
  }

  /** The known servers of the source at this endpoint. */
  function OldByEndpoint(existing: seq<Server>, src: string, e: Id): seq<Server> {
    if existing == [] then []
    else
      var s := existing[|existing| - 1];
      OldByEndpoint(existing[..|existing| - 1], src, e) + if Own(s, src) && Spot(s) == e then [s] else []
  }

  /** The identifier an incoming server gets, given what is reserved so far. */
  function ChosenId(existing: seq<Server>, unique: seq<Server>, src: string, s: Server, reserved: set<Id>): Id {
    var same := OldByConnection(existing, src, Conn(s));
    var known := OldByEndpoint(existing, src, Spot(s));
    var count := Count(unique, Spot(s));
    if same.Some? then same.value.id
    else if |known| == 1 && count == 1 then known[0].id
    else if count > 1 || s.id in reserved || |known| > 0 then FreeVariant(src, Conn(s), reserved, 0)
    else s.id
  }

  /** The next incoming server after those of `r`, with its identifier. */
  function Next(existing: seq<Server>, unique: seq<Server>, src: string, r: seq<Server>): Server
    requires |r| < |unique|
  {
    var s := unique[|r|];
    s.(id := ChosenId(existing, unique, src, s, Ids(existing) + Ids(r)))
  }

  /** The first `n` incoming servers with their identifiers. */
  function Assigned(existing: seq<Server>, unique: seq<Server>, src: string, n: nat): (r: seq<Server>)
    requires n <= |unique|
    ensures |r| == n
  {
    if n == 0 then []
    else
      var r := Assigned(existing, unique, src, n - 1);
      r + [Next(existing, unique, src, r)]
  }

  /** Only the identifier is assigned. */
  lemma {:induction false} AssignedKeeps(existing: seq<Server>, unique: seq<Server>, src: string, n: nat, i: nat)
    requires i < n <= |unique|
    ensures var s := Assigned(existing, unique, src, n)[i]; s == unique[i].(id := s.id)
  {
    if i < n - 1 {
      AssignedKeeps(existing, unique, src, n - 1, i);
    }
  }

  function Reconciled(existing: seq<Server>, incoming: seq<Server>, src: string): seq<Server> {
    Assigned(existing, Unique(incoming), src, |Unique(incoming)|)
  }

  lemma IdsSnoc(l: seq<Server>, s: Server)
    ensures Ids(l + [s]) == Ids(l) + {s.id}
  {
    var m := l + [s];
    assert m[|l|] == s;
    forall id | id in Ids(l) ensures id in Ids(m) {
      var i :| 0 <= i < |l| && l[i].id == id;
      assert m[i].id == id;
    }
  }

  lemma ConnsSnoc(l: seq<Server>, s: Server)
    ensures Conns(l + [s]) == Conns(l) + {Conn(s)}
  {
    var m := l + [s];
    assert m[|l|] == s;
    forall c | c in Conns(l) ensures c in Conns(m) {
      var i :| 0 <= i < |l| && Conn(l[i]) == c;
      assert Conn(m[i]) == c;
    }
  }

  /** The first map is OldByConnection and the second is OldByEndpoint, for every key. */
  ghost predicate IndexConn(existing: seq<Server>, src: string, byConnection: map<Config, Server>) {
    forall c: Config {:trigger OldByConnection(existing, src, c)} ::
      OldByConnection(existing, src, c) == if c in byConnection then Some(byConnection[c]) else None
  }

  ghost predicate IndexSpot(existing: seq<Server>, src: string, byEndpoint: map<Id, seq<Server>>) {
    forall e: Id {:trigger OldByEndpoint(existing, src, e)} ::
      OldByEndpoint(existing, src, e) == if e in byEndpoint then byEndpoint[e] else []
  }

  ghost predicate Counted(unique: seq<Server>, counts: map<Id, nat>) {
    forall e: Id {:trigger Count(unique, e)} :: Count(unique, e) == if e in counts then counts[e] else 0
  }

  lemma IndexConnGrows(l: seq<Server>, src: string, m: map<Config, Server>, s: Server, n: map<Config, Server>)
    requires IndexConn(l, src, m)
    requires n == if Own(s, src) && Conn(s) !in m then m[Conn(s) := s] else m
    ensures IndexConn(l + [s], src, n)
  {
    forall c: Config ensures OldByConnection(l + [s], src, c) == if c in n then Some(n[c]) else None {
      assert (l + [s])[..|l|] == l;
      assert OldByConnection(l, src, c) == if c in m then Some(m[c]) else None;
    }
  }

  lemma IndexSpotGrows(l: seq<Server>, src: string, m: map<Id, seq<Server>>, s: Server, n: map<Id, seq<Server>>)
    requires IndexSpot(l, src, m)
    requires n == if Own(s, src) then m[Spot(s) := (if Spot(s) in m then m[Spot(s)] else []) + [s]] else m
    ensures IndexSpot(l + [s], src, n)
  {
    forall e: Id ensures OldByEndpoint(l + [s], src, e) == if e in n then n[e] else [] {
      assert (l + [s])[..|l|] == l;
      assert OldByEndpoint(l, src, e) == if e in m then m[e] else [];
    }
  }

  method IndexExisting(existing: seq<Server>, src: string)
    returns (byConnection: map<Config, Server>, byEndpoint: map<Id, seq<Server>>, reserved: set<Id>)
    ensures IndexConn(existing, src, byConnection) && IndexSpot(existing, src, byEndpoint)
    ensures reserved == Ids(existing)
  {
    byConnection, byEndpoint, reserved := map[], map[], {};
    for i := 0 to |existing|
      invariant IndexConn(existing[..i], src, byConnection) && IndexSpot(existing[..i], src, byEndpoint)
      invariant reserved == Ids(existing[..i])
    {
      var s := existing[i];
      ghost var conn0, spot0 := byConnection, byEndpoint;
      reserved := reserved + {s.id};
      if s.origin == Subscription && s.source == src {
        var key, endpoint := Conn(s), Spot(s);
        if key !in byConnection {
          byConnection := byConnection[key := s];
        }
        byEndpoint := byEndpoint[endpoint := (if endpoint in byEndpoint then byEndpoint[endpoint] else []) + [s]];
      }
      assert existing[..i + 1] == existing[..i] + [s];
      IdsSnoc(existing[..i], s);
      IndexConnGrows(existing[..i], src, conn0, s, byConnection);
      IndexSpotGrows(existing[..i], src, spot0, s, byEndpoint);
    }
    assert existing[..|existing|] == existing;
  }

  method DropRepeats(incoming: seq<Server>) returns (unique: seq<Server>, counts: map<Id, nat>)
    ensures unique == Unique(incoming) && Counted(unique, counts)
  {
    var seen: set<Config>;
    unique, counts, seen := [], map[], {};
    for i := 0 to |incoming|
      invariant unique == Unique(incoming[..i]) && seen == Conns(unique) && Counted(unique, counts)
    {
      var s := incoming[i];
      assert incoming[..i + 1][..i] == incoming[..i];
      if Conn(s) !in seen {
        ghost var counts0 := counts;
        seen := seen + {Conn(s)};
        counts := counts[Spot(s) := 1 + if Spot(s) in counts then counts[Spot(s)] else 0];
        ConnsSnoc(unique, s);
        CountedGrows(unique, counts0, s, counts);
        unique := unique + [s];
      }
    }
    assert incoming[..|incoming|] == incoming;
  }

  lemma CountedGrows(l: seq<Server>, m: map<Id, nat>, s: Server, n: map<Id, nat>)
    requires Counted(l, m) && n == m[Spot(s) := 1 + if Spot(s) in m then m[Spot(s)] else 0]
    ensures Counted(l + [s], n)
  {
    forall e: Id ensures Count(l + [s], e) == if e in n then n[e] else 0 {
      assert (l + [s])[..|l|] == l;
      assert Count(l, e) == if e in m then m[e] else 0;
    }
  }

  /** One turn of the assignment loop. */
  method Choose(s: Server, src: string, byConnection: map<Config, Server>, byEndpoint: map<Id, seq<Server>>,
                counts: map<Id, nat>, reserved: set<Id>, ghost existing: seq<Server>, ghost unique: seq<Server>)
    returns (id: Id)
    requires IndexConn(existing, src, byConnection) && IndexSpot(existing, src, byEndpoint) && Counted(unique, counts)
    ensures id == ChosenId(existing, unique, src, s, reserved)
  {
    var key, endpoint := Conn(s), Spot(s);
    var known := if endpoint in byEndpoint then byEndpoint[endpoint] else [];
    var count := if endpoint in counts then counts[endpoint] else 0;
    assert known == OldByEndpoint(existing, src, endpoint) && count == Count(unique, endpoint);
    id := s.id;
    if key in byConnection {
      id := byConnection[key].id;
    } else if |known| == 1 && count == 1 {
      id := known[0].id;
    } else if count > 1 || s.id in reserved || |known| > 0 {
      id := AvailableVariantID(src, key, reserved);
    }
  }

  /** The three loops of the source: index what is known, drop repeats and count, then assign. */
  method ReconcileIncomingIDs(existing: seq<Server>, incoming: seq<Server>, src: string) returns (r: seq<Server>)
    ensures r == Reconciled(existing, incoming, src)
  {
    var byConnection, byEndpoint, reserved := IndexExisting(existing, src);
    var unique, counts := DropRepeats(incoming);
    r := [];
    assert Ids(existing) + Ids(r) == Ids(existing);
    for i := 0 to |unique|
      invariant r == Assigned(existing, unique, src, i)
      invariant reserved == Ids(existing) + Ids(r)
    {
      var s := unique[i];
      var id := Choose(s, src, byConnection, byEndpoint, counts, reserved, existing, unique);
      IdsSnoc(r, s.(id := id));
      r := r + [s.(id := id)];
      reserved := reserved + {id};
    }
  }
}

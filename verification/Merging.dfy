/** Merging a subscription's servers into the list, and what a merge guarantees. */
module Merging {
  import opened Base
  import opened Vless
  import opened Servers

  // ---------------------------------------------------------------- the merge

  function ById(l: seq<Server>, id: Id): Option<Server> {
    if l == [] then None
    else if l[|l| - 1].id == id then Some(l[|l| - 1])
    else ById(l[..|l| - 1], id)
  }

  function TakeFlags(s: Server, o: Server): Server {
    s.(tags := o.tags, latency := o.latency, favorite := o.favorite, disabled := o.disabled)
  }

  /** The local fields survive a sync by matching on the identifier. */
  function WithFlags(existing: seq<Server>, s: Server): (r: Server)
    ensures r.id == s.id && r.origin == s.origin && r.source == s.source && r.vless == s.vless
    ensures r.name == s.name && r.remark == s.remark
  {
    var o := ById(existing, s.id);
    if o.Some? then TakeFlags(s, o.value) else s
  }

  function Flagged(existing: seq<Server>, r: seq<Server>): (f: seq<Server>)
    ensures |f| == |r| && forall i :: 0 <= i < |r| ==> f[i] == WithFlags(existing, r[i])
  {
    if r == [] then [] else Flagged(existing, r[..|r| - 1]) + [WithFlags(existing, r[|r| - 1])]
  }

  function Others(l: seq<Server>, seen: set<Id>, src: string): seq<Server> {
    if l == [] then []
    else
      var s := l[|l| - 1];
      Others(l[..|l| - 1], seen, src) + if s.id in seen || Own(s, src) then [] else [s]
  }

  function Merged(existing: seq<Server>, incoming: seq<Server>, src: string): seq<Server> {
    var r := Reconciled(existing, incoming, src);
    Flagged(existing, r) + Others(existing, Ids(r), src)
  }

  ghost predicate IndexIds(l: seq<Server>, byID: map<Id, Server>) {
    forall id: Id {:trigger ById(l, id)} :: ById(l, id) == if id in byID then Some(byID[id]) else None
  }

  method IndexByID(l: seq<Server>) returns (byID: map<Id, Server>)
    ensures IndexIds(l, byID)
  {
    byID := map[];
    for i := 0 to |l|
      invariant IndexIds(l[..i], byID)
    {
      assert l[..i + 1][..i] == l[..i];
      byID := byID[l[i].id := l[i]];
    }
    assert l[..|l|] == l;
  }

  method CarryFlags(existing: seq<Server>, r: seq<Server>) returns (out: seq<Server>, seen: set<Id>)
    ensures out == Flagged(existing, r) && seen == Ids(r)
  {
    var byID := IndexByID(existing);
    out, seen := [], {};
    for i := 0 to |r|
      invariant out == Flagged(existing, r[..i]) && seen == Ids(r[..i])
    {
      var s := r[i];
      assert r[..i + 1] == r[..i] + [s];
      IdsSnoc(r[..i], s);
      seen := seen + {s.id};
      assert ById(existing, s.id) == if s.id in byID then Some(byID[s.id]) else None;
      if s.id in byID {
        s := TakeFlags(s, byID[s.id]);
      }
      out := out + [s];
    }
    assert r[..|r|] == r;
  }

  method Merge(existing: seq<Server>, incoming: seq<Server>, src: string) returns (out: seq<Server>)
    ensures out == Merged(existing, incoming, src)
  {
    var r := ReconcileIncomingIDs(existing, incoming, src);
    var seen;
    out, seen := CarryFlags(existing, r);
    ghost var front := out;
    for i := 0 to |existing|
      invariant out == front + Others(existing[..i], seen, src)
    {
      assert existing[..i + 1][..i] == existing[..i];
      var s := existing[i];
      if s.id !in seen && !(s.origin == Subscription && s.source == src) {
        out := out + [s];
      }
    }
    assert existing[..|existing|] == existing;
  }

  // ---------------------------------------------------------------- first-seen order

  /** Exactly the incoming connections, each once. */
  lemma {:induction false} UniqueConnections(l: seq<Server>)
    ensures Conns(Unique(l)) == Conns(l)
    ensures forall i, j :: 0 <= i < j < |Unique(l)| ==> Conn(Unique(l)[i]) != Conn(Unique(l)[j])
  {
    if l != [] {
      var k := |l| - 1;
      assert l == l[..k] + [l[k]];
      ConnsSnoc(l[..k], l[k]);
      var u := Unique(l[..k]);
      UniqueConnections(l[..k]);
      if Conn(l[k]) !in Conns(u) {
        ConnsSnoc(u, l[k]);
        forall i | 0 <= i < |u| ensures Conn(u[i]) != Conn(l[k]) {
          assert Conn(u[i]) in Conns(u);
        }
      }
    }
  }

  /** Prefixes stay prefixes and a new connection is appended when it first appears: the result is the list of
      first occurrences, in order. */
  lemma {:induction false} UniqueIsFirstSeen(l: seq<Server>, n: nat)
    requires n <= |l|
    ensures Unique(l[..n]) <= Unique(l)
    ensures n < |l| && Conn(l[n]) !in Conns(l[..n]) ==>
              |Unique(l[..n])| < |Unique(l)| && Unique(l)[|Unique(l[..n])|] == l[n]
  {
    if n == |l| {
      assert l[..n] == l;
    } else {
      var k := |l| - 1;
      assert l[..k][..n] == l[..n];
      UniqueIsFirstSeen(l[..k], n);
      if n == k {
        UniqueConnections(l[..k]);
      }
    }
  }

  // ---------------------------------------------------------------- who keeps which identifier

  lemma {:induction false} OldByConnectionFacts(l: seq<Server>, src: string, c: Config)
    ensures var r := OldByConnection(l, src, c);
            if r.Some? then r.value in l && Own(r.value, src) && Conn(r.value) == c
            else forall s :: s in l && Own(s, src) ==> Conn(s) != c
  {
    if l != [] {
      OldByConnectionFacts(l[..|l| - 1], src, c);
      assert l == l[..|l| - 1] + [l[|l| - 1]];
    }
  }

  lemma {:induction false} OldByEndpointFacts(l: seq<Server>, src: string, e: Id)
    ensures forall s :: s in OldByEndpoint(l, src, e) <==> s in l && Own(s, src) && Spot(s) == e
  {
    if l != [] {
      OldByEndpointFacts(l[..|l| - 1], src, e);
      assert l == l[..|l| - 1] + [l[|l| - 1]];
    }
  }

  lemma {:induction false} CountAtLeast(l: seq<Server>, i: nat, j: nat)
    requires i <= j < |l| && Spot(l[i]) == Spot(l[j])
    ensures Count(l, Spot(l[j])) >= if i < j then 2 else 1
  {
    var k := |l| - 1;
    if j < k {
      CountAtLeast(l[..k], i, j);
    } else if i < j {
      CountAtLeast(l[..k], i, i);
    }
  }

  /** Server `u[i]` takes over the identifier of `e`: same connection, or the one server left at its endpoint. */
  ghost predicate TakesOver(existing: seq<Server>, u: seq<Server>, src: string, i: nat, e: Server)
    requires i < |u|
  {
    && e in existing && Own(e, src)
    && (Conn(e) == Conn(u[i]) || (Spot(e) == Spot(u[i]) && Count(u, Spot(u[i])) == 1))
  }

  lemma SameIdSameServer(l: seq<Server>, a: Server, b: Server)
    requires Distinct(l) && a in l && b in l && a.id == b.id
    ensures a == b
  {}

  /** No server can be taken over twice. */
  lemma TakenOverOnce(existing: seq<Server>, u: seq<Server>, src: string, i: nat, j: nat, e: Server)
    requires i < j < |u| && Conn(u[i]) != Conn(u[j])
    requires TakesOver(existing, u, src, i, e)
    ensures !TakesOver(existing, u, src, j, e)
  {
    if Spot(u[i]) == Spot(u[j]) {
      CountAtLeast(u, i, j);
    }
  }

  /** The identifier chosen for `u[i]` is that of a server it takes over, or is in use nowhere. */
  lemma ChosenIdFacts(existing: seq<Server>, u: seq<Server>, src: string, i: nat, reserved: set<Id>) returns (e: Option<Server>)
    requires i < |u| && Ids(existing) <= reserved
    ensures var id := ChosenId(existing, u, src, u[i], reserved);
            if e.Some? then TakesOver(existing, u, src, i, e.value) && e.value.id == id else id !in reserved
  {
    OldByConnectionFacts(existing, src, Conn(u[i]));
    OldByEndpointFacts(existing, src, Spot(u[i]));
    var same := OldByConnection(existing, src, Conn(u[i]));
    var known := OldByEndpoint(existing, src, Spot(u[i]));
    if same.Some? {
      e := same;
    } else if |known| == 1 && Count(u, Spot(u[i])) == 1 {
      assert known[0] in known;
      e := Some(known[0]);
    } else {
      e := None;
    }
  }

  /** Assigned identifiers: each belongs to a server taken over, or to nobody. */
  ghost predicate Sound(existing: seq<Server>, u: seq<Server>, src: string, r: seq<Server>)
    requires |r| <= |u|
  {
    && Distinct(r)
    && forall i :: 0 <= i < |r| ==>
         r[i].id !in Ids(existing) || exists e :: TakesOver(existing, u, src, i, e) && e.id == r[i].id
  }

  lemma {:induction false} AssignedSound(existing: seq<Server>, u: seq<Server>, src: string, n: nat)
    requires n <= |u| && Distinct(existing)
    requires forall i, j :: 0 <= i < j < |u| ==> Conn(u[i]) != Conn(u[j])
    ensures Sound(existing, u, src, Assigned(existing, u, src, n))
  {
    if n > 0 {
      AssignedSound(existing, u, src, n - 1);
      var r := Assigned(existing, u, src, n - 1);
      var reserved := Ids(existing) + Ids(r);
      var e := ChosenIdFacts(existing, u, src, n - 1, reserved);
      AssignedSnoc(existing, u, src, n);
      SoundGrows(existing, u, src, r, Next(existing, u, src, r), e);
    }
  }

  lemma SoundGrows(existing: seq<Server>, u: seq<Server>, src: string, r: seq<Server>, s: Server, e: Option<Server>)
    requires Distinct(existing) && |r| < |u| && Sound(existing, u, src, r)
    requires forall i :: 0 <= i < |r| ==> Conn(u[i]) != Conn(u[|r|])
    requires if e.Some? then TakesOver(existing, u, src, |r|, e.value) && e.value.id == s.id
             else s.id !in Ids(existing) + Ids(r)
    ensures Sound(existing, u, src, r + [s])
  {
    forall i | 0 <= i < |r| ensures r[i].id != s.id {
      assert r[i].id in Ids(r);
      if e.Some? {
        NotTakenAgain(existing, u, src, r, i, |r|, e.value);
      }
    }
  }

  lemma NotTakenAgain(existing: seq<Server>, u: seq<Server>, src: string, r: seq<Server>, i: nat, j: nat, e: Server)
    requires Distinct(existing) && i < |r| <= j < |u| && Sound(existing, u, src, r) && Conn(u[i]) != Conn(u[j])
    requires TakesOver(existing, u, src, j, e)
    ensures r[i].id != e.id
  {
    var k :| 0 <= k < |existing| && existing[k] == e;
    assert existing[k].id in Ids(existing);
    if r[i].id in Ids(existing) {
      var f :| TakesOver(existing, u, src, i, f) && f.id == r[i].id;
      TakenOverOnce(existing, u, src, i, j, f);
      if f.id == e.id {
        SameIdSameServer(existing, e, f);
      }
    }
  }

  // ---------------------------------------------------------------- the merged list

  function NotOwn(l: seq<Server>, src: string): seq<Server> {
    if l == [] then []
    else NotOwn(l[..|l| - 1], src) + if Own(l[|l| - 1], src) then [] else [l[|l| - 1]]
  }

  lemma {:induction false} NotOwnFacts(l: seq<Server>, src: string)
    ensures forall s :: s in NotOwn(l, src) <==> s in l && !Own(s, src)
    ensures Distinct(l) ==> Distinct(NotOwn(l, src))
  {
    if l != [] {
      var k := |l| - 1;
      NotOwnFacts(l[..k], src);
      assert l == l[..k] + [l[k]];
      var init := NotOwn(l[..k], src);
      if Distinct(l) {
        forall i | 0 <= i < |init| ensures init[i].id != l[k].id {
          assert init[i] in l[..k];
        }
      }
    }
  }

  lemma {:induction false} OthersAreNotOwn(l: seq<Server>, seen: set<Id>, src: string)
    requires forall s :: s in l && !Own(s, src) ==> s.id !in seen
    ensures Others(l, seen, src) == NotOwn(l, src)
  {
    if l != [] {
      OthersAreNotOwn(l[..|l| - 1], seen, src);
      assert l[|l| - 1] in l;
    }
  }

  lemma ReconciledSound(existing: seq<Server>, incoming: seq<Server>, src: string)
    requires Distinct(existing)
    ensures Sound(existing, Unique(incoming), src, Reconciled(existing, incoming, src))
    ensures forall s :: s in existing && !Own(s, src) ==> s.id !in Ids(Reconciled(existing, incoming, src))
  {
    UniqueConnections(incoming);
    var u := Unique(incoming);
    AssignedSound(existing, u, src, |u|);
    var r := Reconciled(existing, incoming, src);
    forall s | s in existing && !Own(s, src) ensures s.id !in Ids(r) {
      forall i | 0 <= i < |r| ensures r[i].id != s.id {
        NotTakenFrom(existing, u, src, r, i, s);
      }
    }
  }

  lemma NotTakenFrom(existing: seq<Server>, u: seq<Server>, src: string, r: seq<Server>, i: nat, s: Server)
    requires Distinct(existing) && |r| == |u| && Sound(existing, u, src, r) && i < |r| && s in existing && !Own(s, src)
    ensures r[i].id != s.id
  {}

  /** `m` is the incoming server `s` but for the identifier and the local fields. */
  predicate SameServer(m: Server, s: Server) {
    m.vless == s.vless && m.name == s.name && m.remark == s.remark && m.origin == s.origin && m.source == s.source
  }

  /** What the user set or the probes measured. */
  predicate SameFlags(m: Server, e: Server) {
    m.tags == e.tags && m.latency == e.latency && m.favorite == e.favorite && m.disabled == e.disabled
  }

  /** From a list without repeated identifiers a merge makes one again. It begins with the incoming servers,
      one for each connection in first-seen order, and goes on with every server of another origin or source,
      untouched and in order. */
  lemma MergeKeepsIdsApart(existing: seq<Server>, incoming: seq<Server>, src: string)
    requires Distinct(existing)
    ensures var u, m := Unique(incoming), Merged(existing, incoming, src);
            && Distinct(m) && |u| <= |m|
            && (forall i :: 0 <= i < |u| ==> SameServer(m[i], u[i]))
            && m[|u|..] == NotOwn(existing, src)
  {
    ReconciledSound(existing, incoming, src);
    var r, u := Reconciled(existing, incoming, src), Unique(incoming);
    OthersAreNotOwn(existing, Ids(r), src);
    NotOwnFacts(existing, src);
    var m, rest := Merged(existing, incoming, src), NotOwn(existing, src);
    forall i | 0 <= i < |u| ensures SameServer(m[i], u[i]) {
      AssignedKeeps(existing, u, src, |u|, i);
    }
    assert m[|u|..] == rest;
    forall i, j | 0 <= i < j < |m| ensures m[i].id != m[j].id {
      if j < |u| {
        assert m[i].id == r[i].id && m[j].id == r[j].id;
      } else if i < |u| {
        assert m[j] == rest[j - |u|] && m[j] in rest;
        assert m[i].id == r[i].id && r[i].id in Ids(r);
      } else {
        assert m[i] == rest[i - |u|] && m[j] == rest[j - |u|];
      }
    }
  }

  lemma {:induction false} ByIdFinds(l: seq<Server>, s: Server)
    requires Distinct(l) && s in l
    ensures ById(l, s.id) == Some(s)
  {
    var k := |l| - 1;
    assert l == l[..k] + [l[k]];
    if l[k] != s {
      SameIdUnlessEqual(l, l[k], s);
      ByIdFinds(l[..k], s);
    }
  }

  lemma SameIdUnlessEqual(l: seq<Server>, a: Server, b: Server)
    requires Distinct(l) && a in l && b in l && a != b
    ensures a.id != b.id
  {}

  /** A connection the source already had keeps its identifier and everything the user set on it. */
  lemma KnownConnectionKeepsIdAndFlags(existing: seq<Server>, incoming: seq<Server>, src: string, i: nat, e: Server)
    requires Distinct(existing) && i < |Unique(incoming)|
    requires OldByConnection(existing, src, Conn(Unique(incoming)[i])) == Some(e)
    ensures var m := Merged(existing, incoming, src);
            i < |m| && m[i].id == e.id && SameFlags(m[i], e) && SameServer(m[i], Unique(incoming)[i])
  {
    var u := Unique(incoming);
    AssignedAt(existing, u, src, |u|, i);
    AssignedKeeps(existing, u, src, |u|, i);
    OldByConnectionFacts(existing, src, Conn(u[i]));
    ByIdFinds(existing, e);
  }

  /** A server whose settings changed at its endpoint is still the same server when it is the only one there,
      before and after. */
  lemma ChangedConnectionKeepsIdAndFlags(existing: seq<Server>, incoming: seq<Server>, src: string, i: nat, e: Server)
    requires Distinct(existing) && i < |Unique(incoming)|
    requires OldByConnection(existing, src, Conn(Unique(incoming)[i])) == None
    requires OldByEndpoint(existing, src, Spot(Unique(incoming)[i])) == [e]
    requires Count(Unique(incoming), Spot(Unique(incoming)[i])) == 1
    ensures var m := Merged(existing, incoming, src);
            i < |m| && m[i].id == e.id && SameFlags(m[i], e) && SameServer(m[i], Unique(incoming)[i])
  {
    var u := Unique(incoming);
    AssignedAt(existing, u, src, |u|, i);
    AssignedKeeps(existing, u, src, |u|, i);
    OldByEndpointFacts(existing, src, Spot(u[i]));
    assert e in [e];
    ByIdFinds(existing, e);
  }

  lemma AssignedSnoc(existing: seq<Server>, u: seq<Server>, src: string, n: nat)
    requires 0 < n <= |u|
    ensures var r := Assigned(existing, u, src, n - 1); Assigned(existing, u, src, n) == r + [Next(existing, u, src, r)]
  {}

  lemma PrefixSnoc<T>(r: seq<T>, n: nat)
    requires 0 < n <= |r|
    ensures r[..n] == r[..n - 1] + [r[n - 1]]
  {}

  lemma {:induction false} AssignedAt(existing: seq<Server>, u: seq<Server>, src: string, n: nat, i: nat)
    requires i < n <= |u|
    ensures Assigned(existing, u, src, n)[i] == Next(existing, u, src, Assigned(existing, u, src, i))
  {
    AssignedSnoc(existing, u, src, n);
    if i < n - 1 {
      AssignedAt(existing, u, src, n - 1, i);
    }
  }

  // ---------------------------------------------------------------- syncing again changes nothing

  lemma {:induction false} OthersConcat(a: seq<Server>, b: seq<Server>, seen: set<Id>, src: string)
    requires forall s :: s in a ==> s.id in seen
    ensures Others(a + b, seen, src) == Others(b, seen, src)
  {
    if b == [] {
      assert a + b == a;
      if a != [] {
        assert a[|a| - 1] in a;
        OthersConcat(a[..|a| - 1], [], seen, src);
        assert a[..|a| - 1] + [] == a[..|a| - 1];
      }
    } else {
      assert (a + b)[..|a + b| - 1] == a + b[..|b| - 1];
      OthersConcat(a, b[..|b| - 1], seen, src);
    }
  }

  lemma {:induction false} NotOwnTwice(l: seq<Server>, src: string)
    ensures NotOwn(NotOwn(l, src), src) == NotOwn(l, src)
  {
    if l != [] {
      var n, s := NotOwn(l[..|l| - 1], src), l[|l| - 1];
      NotOwnTwice(l[..|l| - 1], src);
      NotOwnSnoc(n, s, src);
      assert n + [] == n;
    }
  }

  lemma NotOwnSnoc(l: seq<Server>, s: Server, src: string)
    ensures NotOwn(l + [s], src) == NotOwn(l, src) + if Own(s, src) then [] else [s]
  {}

  /** The list `m` begins with the connections of `u`, and holds no other server of the source. */
  ghost predicate Leads(m: seq<Server>, u: seq<Server>, src: string) {
    && |u| <= |m|
    && (forall i :: 0 <= i < |u| ==> Own(m[i], src) && Conn(m[i]) == Conn(u[i]))
    && (forall i :: |u| <= i < |m| ==> !Own(m[i], src))
    && (forall i, j :: 0 <= i < j < |u| ==> Conn(u[i]) != Conn(u[j]))
  }

  lemma MergedLeads(existing: seq<Server>, incoming: seq<Server>, src: string)
    requires Distinct(existing) && (forall s :: s in incoming ==> Own(s, src))
    ensures Leads(Merged(existing, incoming, src), Unique(incoming), src)
  {
    MergeKeepsIdsApart(existing, incoming, src);
    UniqueConnections(incoming);
    UniqueFrom(incoming);
    NotOwnFacts(existing, src);
    var m, u := Merged(existing, incoming, src), Unique(incoming);
    forall i | 0 <= i < |u| ensures Own(m[i], src) && Conn(m[i]) == Conn(u[i]) {
      assert u[i] in u && SameServer(m[i], u[i]);
    }
    var rest := m[|u|..];
    forall i | |u| <= i < |m| ensures !Own(m[i], src) {
      assert m[i] == rest[i - |u|] && m[i] in rest;
    }
  }

  /** In such a list each incoming connection is found again at its own place. */
  lemma FoundAgain(m: seq<Server>, u: seq<Server>, src: string, i: nat)
    requires Leads(m, u, src) && i < |u|
    ensures OldByConnection(m, src, Conn(u[i])) == Some(m[i])
  {
    OldByConnectionFacts(m, src, Conn(u[i]));
    assert m[i] in m;
    var o := OldByConnection(m, src, Conn(u[i])).value;
    var k :| 0 <= k < |m| && m[k] == o;
    assert Conn(u[k]) == Conn(u[i]);
  }

  lemma {:induction false} UniqueFrom(l: seq<Server>)
    ensures forall s :: s in Unique(l) ==> s in l
  {
    if l != [] {
      UniqueFrom(l[..|l| - 1]);
      assert l == l[..|l| - 1] + [l[|l| - 1]];
    }
  }

  lemma NextKnown(existing: seq<Server>, u: seq<Server>, src: string, r: seq<Server>, e: Server)
    requires |r| < |u| && OldByConnection(existing, src, Conn(u[|r|])) == Some(e)
    ensures Next(existing, u, src, r) == u[|r|].(id := e.id)
  {}

  lemma {:induction false} ReassignedSame(m: seq<Server>, u: seq<Server>, src: string, r: seq<Server>, n: nat)
    requires Leads(m, u, src) && n <= |u| == |r| && (forall i :: 0 <= i < |r| ==> r[i] == u[i].(id := m[i].id))
    ensures Assigned(m, u, src, n) == r[..n]
  {
    if n > 0 {
      ReassignedSame(m, u, src, r, n - 1);
      FoundAgain(m, u, src, n - 1);
      var init := r[..n - 1];
      NextKnown(m, u, src, init, m[n - 1]);
      AssignedSnoc(m, u, src, n);
      PrefixSnoc(r, n);
    }
  }

  lemma ReconciledAgain(existing: seq<Server>, incoming: seq<Server>, src: string)
    requires Distinct(existing) && (forall s :: s in incoming ==> Own(s, src))
    ensures Reconciled(Merged(existing, incoming, src), incoming, src) == Reconciled(existing, incoming, src)
  {
    var m, u, r := Merged(existing, incoming, src), Unique(incoming), Reconciled(existing, incoming, src);
    MergedLeads(existing, incoming, src);
    forall i | 0 <= i < |u| ensures r[i] == u[i].(id := m[i].id) {
      AssignedKeeps(existing, u, src, |u|, i);
    }
    ReassignedSame(m, u, src, r, |u|);
    assert r[..|u|] == r;
  }

  lemma FlaggedAgain(m: seq<Server>, r: seq<Server>, existing: seq<Server>)
    requires Distinct(m) && |r| <= |m| && m[..|r|] == Flagged(existing, r)
    ensures Flagged(m, r) == m[..|r|]
  {
    forall i | 0 <= i < |r| ensures Flagged(m, r)[i] == m[..|r|][i] {
      assert m[i] in m && m[i] == m[..|r|][i];
      ByIdFinds(m, m[i]);
    }
  }

  /** Syncing the same answer again changes nothing at all. */
  lemma MergeIsIdempotent(existing: seq<Server>, incoming: seq<Server>, src: string)
    requires Distinct(existing) && (forall s :: s in incoming ==> Own(s, src))
    ensures Merged(Merged(existing, incoming, src), incoming, src) == Merged(existing, incoming, src)
  {
    var m, u, r := Merged(existing, incoming, src), Unique(incoming), Reconciled(existing, incoming, src);
    MergeKeepsIdsApart(existing, incoming, src);
    ReconciledAgain(existing, incoming, src);
    assert m[..|r|] == Flagged(existing, r);
    FlaggedAgain(m, r, existing);
    RestIsKept(existing, incoming, src);
    assert m == m[..|u|] + m[|u|..];
  }

  lemma RestIsKept(existing: seq<Server>, incoming: seq<Server>, src: string)
    requires Distinct(existing)
    ensures var m, u, r := Merged(existing, incoming, src), Unique(incoming), Reconciled(existing, incoming, src);
            |u| <= |m| && Others(m, Ids(r), src) == m[|u|..]
  {
    MergeKeepsIdsApart(existing, incoming, src);
    ReconciledSound(existing, incoming, src);
    NotOwnFacts(existing, src);
    NotOwnTwice(existing, src);
    var m, u, r := Merged(existing, incoming, src), Unique(incoming), Reconciled(existing, incoming, src);
    forall s | s in m[..|u|] ensures s.id in Ids(r) {
      var i :| 0 <= i < |u| && m[i] == s;
      assert m[i].id == r[i].id;
    }
    assert m == m[..|u|] + m[|u|..];
    OthersConcat(m[..|u|], m[|u|..], Ids(r), src);
    OthersAreNotOwn(m[|u|..], Ids(r), src);
  }

  // ---------------------------------------------------------------- the two sync paths agree

  /** Built from a fetched document: of this source, and named after its endpoint. */
  ghost predicate Fresh(l: seq<Server>, src: string) {
    forall i :: 0 <= i < |l| ==> Own(l[i], src) && l[i].id == Spot(l[i])
  }

  /** Same list but for the identifiers, and the same even there at an endpoint no other server has. */
  ghost predicate Alike(a: seq<Server>, u: seq<Server>, n: nat)
    requires |a| == n <= |u|
  {
    forall i :: 0 <= i < n ==>
      && a[i] == u[i].(id := a[i].id)
      && (a[i].id.Variant? || a[i].id == Spot(u[i]))
      && (Count(u, Spot(u[i])) == 1 ==> a[i] == u[i])
  }

  lemma {:induction false} AssignedFresh(u: seq<Server>, src: string, n: nat)
    requires Fresh(u, src) && n <= |u|
    ensures Alike(Assigned([], u, src, n), u, n)
  {
    if n > 0 {
      AssignedFresh(u, src, n - 1);
      var a := Assigned([], u, src, n - 1);
      NextFresh(u, src, a);
    }
  }

  lemma NextFresh(u: seq<Server>, src: string, a: seq<Server>)
    requires Fresh(u, src) && |a| < |u| && Alike(a, u, |a|)
    ensures Alike(a + [Next([], u, src, a)], u, |a| + 1)
  {
    var s := u[|a|];
    if Count(u, Spot(s)) == 1 {
      forall i | 0 <= i < |a| ensures a[i].id != Spot(s) {
        if Spot(u[i]) == Spot(s) {
          CountAtLeast(u, i, |a|);
        }
      }
    }
  }

  lemma {:induction false} CountAlike(a: seq<Server>, u: seq<Server>, e: Id)
    requires |a| == |u| && (forall i :: 0 <= i < |u| ==> Spot(a[i]) == Spot(u[i]))
    ensures Count(a, e) == Count(u, e)
  {
    if a != [] {
      CountAlike(a[..|a| - 1], u[..|a| - 1], e);
    }
  }

  lemma NotThere(l: seq<Server>, c: Config)
    requires forall i :: 0 <= i < |l| ==> Conn(l[i]) != c
    ensures c !in Conns(l)
  {}

  lemma {:induction false} UniqueAlready(l: seq<Server>)
    requires forall i, j :: 0 <= i < j < |l| ==> Conn(l[i]) != Conn(l[j])
    ensures Unique(l) == l
  {
    if l != [] {
      var init, last := l[..|l| - 1], l[|l| - 1];
      forall i | 0 <= i < |init| ensures Conn(init[i]) != Conn(last) {
        assert init[i] == l[i];
      }
      UniqueAlready(init);
      NotThere(init, Conn(last));
      assert l == init + [last];
    }
  }

  lemma NextAlike(existing: seq<Server>, a: seq<Server>, u: seq<Server>, src: string, r: seq<Server>)
    requires |a| == |u| && Alike(a, u, |u|) && |r| < |u|
    ensures Next(existing, a, src, r).id == Next(existing, u, src, r).id
  {
    CountAlike(a, u, Spot(u[|r|]));
    CountAtLeast(u, |r|, |r|);
  }

  lemma {:induction false} AssignedAlike(existing: seq<Server>, a: seq<Server>, u: seq<Server>, src: string, n: nat)
    requires n <= |a| == |u| && Alike(a, u, |u|)
    ensures Assigned(existing, a, src, n) == Assigned(existing, u, src, n)
  {
    if n > 0 {
      AssignedAlike(existing, a, u, src, n - 1);
      var r := Assigned(existing, u, src, n - 1);
      NextAlike(existing, a, u, src, r);
      assert Next(existing, a, src, r) == Next(existing, u, src, r);
    }
  }

  lemma MergedIntoNothing(incoming: seq<Server>, src: string)
    ensures Merged([], incoming, src) == Reconciled([], incoming, src)
  {}

  /** The background refresh reconciles a fetched list on its own before merging it; a sync on request merges
      it directly. The stored list is the same. */
  lemma SyncPathsAgree(existing: seq<Server>, incoming: seq<Server>, src: string)
    requires Fresh(incoming, src)
    ensures Merged(existing, Merged([], incoming, src), src) == Merged(existing, incoming, src)
  {
    var u := Unique(incoming);
    UniqueFrom(incoming);
    UniqueConnections(incoming);
    assert Fresh(u, src) by {
      forall i | 0 <= i < |u| ensures Own(u[i], src) && u[i].id == Spot(u[i]) {
        assert u[i] in u;
      }
    }
    MergedIntoNothing(incoming, src);
    var a := Merged([], incoming, src);
    AssignedFresh(u, src, |u|);
    UniqueAlready(a);
    AssignedAlike(existing, a, u, src, |u|);
  }

  // ---------------------------------------------------------------- what makes a connection

  /** Two configurations are one connection exactly when they differ in the remark at most. */
  lemma ConnectionIsAllButTheRemark(c: Config, d: Config)
    ensures (ConnectionID(c) == ConnectionID(d)) == (c == d.(remark := c.remark))
  {
    assert c == ConnectionID(c).(remark := c.remark);
  }

  /** Two configurations share an endpoint exactly when they go to the same place for the same user. */
  lemma EndpointIsPlaceAndUser(c: Config, d: Config)
    ensures (StableID(c) == StableID(d)) == (c.address == d.address && c.port == d.port && c.uuid == d.uuid)
  {}

  /** Two servers that differ in name and remark only, as far as the connection goes. */
  predicate Twins(a: Server, b: Server) { a.vless == b.vless.(remark := a.vless.remark) }

  lemma TwinsShare(a: Server, b: Server)
    ensures Twins(a, b) == (Conn(a) == Conn(b))
  {
    ConnectionIsAllButTheRemark(a.vless, b.vless);
  }

  /** A merged list holds no two servers of the source that differ in the remark only. */
  lemma NoTwinsAfterMerge(existing: seq<Server>, incoming: seq<Server>, src: string, i: nat, j: nat)
    requires Distinct(existing) && (forall s :: s in incoming ==> Own(s, src))
    requires var m := Merged(existing, incoming, src); i < j < |m| && Own(m[i], src) && Own(m[j], src)
    ensures !Twins(Merged(existing, incoming, src)[i], Merged(existing, incoming, src)[j])
  {
    MergedLeads(existing, incoming, src);
    var m := Merged(existing, incoming, src);
    TwinsShare(m[i], m[j]);
  }

  /** Every incoming configuration is in the merged list, but for the remark, whatever repeats there were. */
  lemma {:induction false} IncomingIsThere(existing: seq<Server>, incoming: seq<Server>, src: string, s: Server) returns (i: nat)
    requires Distinct(existing) && s in incoming
    ensures i < |Unique(incoming)| && Conn(Unique(incoming)[i]) == Conn(s)
    ensures i < |Merged(existing, incoming, src)| && Twins(Merged(existing, incoming, src)[i], s)
  {
    MergeKeepsIdsApart(existing, incoming, src);
    UniqueConnections(incoming);
    var k :| 0 <= k < |incoming| && incoming[k] == s;
    assert Conn(incoming[k]) in Conns(Unique(incoming));
    i :| 0 <= i < |Unique(incoming)| && Conn(Unique(incoming)[i]) == Conn(s);
    assert SameServer(Merged(existing, incoming, src)[i], Unique(incoming)[i]);
    TwinsShare(Merged(existing, incoming, src)[i], s);
  }

  /** A server whose remark alone changed keeps its identifier and what the user set on it, whatever else is at its
      endpoint. */
  lemma RenamedServerKeepsIdAndFlags(existing: seq<Server>, incoming: seq<Server>, src: string, e: Server, s: Server) returns (i: nat)
    requires Distinct(existing) && e in existing && Own(e, src) && s in incoming && Twins(s, e)
    requires forall o :: o in existing && Own(o, src) && Twins(o, e) ==> o == e
    ensures var m := Merged(existing, incoming, src); i < |m| && m[i].id == e.id && SameFlags(m[i], e) && Twins(m[i], s)
  {
    i := IncomingIsThere(existing, incoming, src, s);
    var c := Conn(Unique(incoming)[i]);
    TwinsShare(s, e);
    OldByConnectionFacts(existing, src, c);
    var o := OldByConnection(existing, src, c);
    TwinsShare(o.value, e);
    KnownConnectionKeepsIdAndFlags(existing, incoming, src, i, e);
  }
}

/** What each transaction on the stores does, and what a finished sync leaves in the list. */
module StoreLaws {
  import opened Base
  import opened Text
  import opened Vless
  import opened Servers
  import opened Merging
  import opened Stores
  import opened StoreRuns
  import VlessUrl

  // ---------------------------------------------------------------- single transactions

  /** Everything about a server but the favourite flag. */
  predicate SameButFavorite(a: Server, b: Server) {
    && a.id == b.id && a.origin == b.origin && a.source == b.source && SameServer(a, b)
    && a.tags == b.tags && a.latency == b.latency && a.disabled == b.disabled
  }

  /** A toggle turns the flag of the one server over and leaves the rest of the list as it is. */
  lemma ToggleLaw(d: Disk, id: Id)
    ensures var e := Apply(d, Flip(id));
            && e.subs == d.subs && |e.servers| == |d.servers|
            && forall i :: 0 <= i < |d.servers| ==>
                 if d.servers[i].id == id
                 then SameButFavorite(e.servers[i], d.servers[i]) && e.servers[i].favorite != d.servers[i].favorite
                 else e.servers[i] == d.servers[i]
  {}

  predicate SameButLatency(a: Server, b: Server) {
    && a.id == b.id && a.origin == b.origin && a.source == b.source && SameServer(a, b)
    && a.tags == b.tags && a.favorite == b.favorite && a.disabled == b.disabled
  }

  /** Measured servers get what was measured, and keep everything else; the others are left alone. */
  lemma MeasureLaw(d: Disk, m: map<Id, Option<nat>>)
    ensures var e := Apply(d, Measure(m));
            && e.subs == d.subs && |e.servers| == |d.servers|
            && forall i :: 0 <= i < |d.servers| ==>
                 if d.servers[i].id in m
                 then SameButLatency(e.servers[i], d.servers[i]) && e.servers[i].latency == m[d.servers[i].id]
                 else e.servers[i] == d.servers[i]
  {}

  /** An edited subscription has the new URL and none of its former servers; the others keep theirs, in order. An
      unknown identifier or the same URL changes nothing. */
  lemma EditLaw(d: Disk, id: string, url: string)
    requires SubsDistinct(d.subs)
    ensures var e := Apply(d, EditSub(id, url));
            && |e.subs| == |d.subs|
            && (forall i :: 0 <= i < |d.subs| ==>
                  e.subs[i].id == d.subs[i].id && e.subs[i].url == if d.subs[i].id == id then url else d.subs[i].url)
            && (HasSub(d.subs, id) ==> Sub(id, url) in e.subs)
            && (if HasSub(d.subs, id) && Sub(id, url) !in d.subs
                then forall s :: s in e.servers <==> s in d.servers && s.source != id
                else e == d)
  {
    WithoutFacts(d.servers, id);
    if HasSub(d.subs, id) {
      var i :| 0 <= i < |d.subs| && d.subs[i].id == id;
      assert Apply(d, EditSub(id, url)).subs[i] == Sub(id, url);
      if Sub(id, url) in d.subs {
        var j :| 0 <= j < |d.subs| && d.subs[j] == Sub(id, url);
      }
    }
  }

  /** A new subscription comes last, and nothing else changes. */
  lemma AddSubLaw(d: Disk, id: string, url: string)
    ensures var e := Apply(d, AddSub(id, url));
            |e.subs| == |d.subs| + 1 && e.subs[..|d.subs|] == d.subs && e.subs[|d.subs|] == Sub(id, url) && e.servers == d.servers
  {}

  /** A removed subscription is gone, and so is every server with its identifier as the source. */
  lemma RemoveLaw(d: Disk, id: string)
    ensures var e := Apply(d, RemoveSub(id));
            && !HasSub(e.subs, id) && (forall s :: s in e.subs <==> s in d.subs && s.id != id)
            && (forall s :: s in e.servers <==> s in d.servers && s.source != id)
  {
    SubsExceptFacts(d.subs, id);
    WithoutFacts(d.servers, id);
    var e := Apply(d, RemoveSub(id));
    forall i | 0 <= i < |e.subs| ensures e.subs[i].id != id {
      assert e.subs[i] in e.subs;
    }
  }

  /** A new manual server comes last, under the name given, else its remark, else its place. */
  lemma AddLaw(d: Disk, id: Id, name: string, c: Config)
    ensures var e := Apply(d, AddServer(id, name, c));
            && e.subs == d.subs && |e.servers| == |d.servers| + 1 && e.servers[..|d.servers|] == d.servers
            && var s := e.servers[|d.servers|];
               && s.id == id && s.origin == Manual && s.source == "" && s.vless == c && s.remark == c.remark
               && s.name != "" && (name != "" ==> s.name == name) && (name == "" && c.remark != "" ==> s.name == c.remark)
               && s.tags == [] && s.latency == None && !s.favorite && !s.disabled
  {}

  /** An edit changes name, remark and configuration of the manual server it names, and nothing else. */
  lemma EditServerLaw(d: Disk, id: Id, name: string, c: Config)
    ensures var e := Apply(d, EditServer(id, name, c));
            && e.subs == d.subs && |e.servers| == |d.servers|
            && forall i :: 0 <= i < |d.servers| ==>
                 if d.servers[i].id == id && d.servers[i].origin == Manual
                 then e.servers[i] == d.servers[i].(name := e.servers[i].name, remark := c.remark, vless := c) && e.servers[i].name != ""
                 else e.servers[i] == d.servers[i]
  {}

  /** A removal takes exactly the named server, if it may be removed. */
  lemma RemoveServerLaw(d: Disk, id: Id, active: Option<Id>)
    ensures var e := Apply(d, RemoveServer(id, active));
            && e.subs == d.subs
            && (if Removable(d, id, active) then forall s :: s in e.servers <==> s in d.servers && s.id != id else e == d)
  {
    ExceptFacts(d.servers, id);
  }

  predicate LastFor(results: seq<(Id, Option<nat>)>, id: Id, k: int) {
    0 <= k < |results| && results[k].0 == id && forall j :: k < j < |results| ==> results[j].0 != id
  }

  /** Blank results do not count. */
  lemma {:induction false} ResultsCount(results: seq<(Id, Option<nat>)>, id: Id)
    ensures (id in Latest(results)) == (id != Named("") && exists r :: r in results && r.0 == id)
  {
    if results != [] {
      var init, last := results[..|results| - 1], results[|results| - 1];
      ResultsCount(init, id);
      assert results == init + [last];
    }
  }

  /** Of several results of a probe for one server the last counts. */
  lemma {:induction false} LastResultCounts(results: seq<(Id, Option<nat>)>, id: Id, k: nat)
    requires LastFor(results, id, k) && id != Named("")
    ensures id in Latest(results) && Latest(results)[id] == results[k].1
  {
    if k < |results| - 1 {
      var init := results[..|results| - 1];
      assert init[k] == results[k] && forall j :: k < j < |init| ==> init[j] == results[j];
      LastResultCounts(init, id, k);
    }
  }

  /** A server without a name is shown by its place, in the form in which a link takes it apart again: with brackets
      around an IPv6 literal. */
  lemma PlaceReadsBack(address: string, port: nat)
    requires ':' in address || ('[' !in address && VlessUrl.Printable(address))
    ensures VlessUrl.SplitHost(HostPort(address, port)) == Some((address, Decimal(port)))
  {
    if ':' in address {
      BracketsReadBack(address, port);
    } else {
      VlessUrl.SplitPrinted(address, port);
    }
  }

  lemma BracketsReadBack(address: string, port: nat)
    requires ':' in address
    ensures VlessUrl.SplitHost("[" + address + "]" + ":" + Decimal(port)) == Some((address, Decimal(port)))
  {
    InBrackets(address, Decimal(port));
    ValueOfDecimal(port);
    Bracketed("[" + address + "]" + ":" + Decimal(port), address, Decimal(port));
  }

  lemma InBrackets(address: string, d: string)
    ensures var h, end := "[" + address + "]" + ":" + d, |address| + 1;
            |h| == end + 2 + |d| && h[0] == '[' && h[end] == ']' && h[1..end] == address && h[end + 1] == ':' && h[end + 2..] == d
  {}

  lemma Bracketed(h: string, address: string, d: string)
    requires |h| == |address| + 3 + |d| && h[0] == '[' && h[|address| + 1] == ']' && h[1..|address| + 1] == address
    requires h[|address| + 2] == ':' && h[|address| + 3..] == d && AllDigits(d) && ':' in address
    ensures VlessUrl.SplitHost(h) == Some((address, d))
  {
    var end := |address| + 1;
    var rest := h[end + 1..];
    assert rest[0] == ':' && rest[1..] == d;
    forall i | 0 <= i < |rest| ensures rest[i] != ']' {
      assert i > 0 ==> rest[i] == d[i - 1];
    }
    VlessUrl.LastIndexIs(h, ']', end);
  }

  // ---------------------------------------------------------------- a finished sync

  /** The answer of a job is kept until it finishes. */
  lemma {:induction false} AnswerIsKept(s: State, run: seq<Label>, k: nat)
    requires Allowed(s, run) && k < |s.jobs| && s.jobs[k].incoming.Some?
    ensures k < |After(s, run).jobs| && After(s, run).jobs[k] == s.jobs[k]
    decreases |run|
  {
    if run != [] {
      AnswerIsKept(StoreRuns.Next(s, run[0]), run[1..], k);
    }
  }

  /** Server `s` carries configuration `c`, but for the remark. */
  predicate Carries(s: Server, c: Config) { s.vless == c.(remark := s.vless.remark) }

  ghost predicate There(l: seq<Server>, src: string, c: Config) { exists s :: s in l && Own(s, src) && Carries(s, c) }

  ghost predicate AllThere(l: seq<Server>, src: string, configs: seq<Config>) {
    forall c :: c in configs ==> There(l, src, c)
  }

  ghost predicate OnlyThese(l: seq<Server>, src: string, configs: seq<Config>) {
    forall s :: s in l && Own(s, src) ==> s.vless in configs
  }

  ghost predicate OnceEach(l: seq<Server>, src: string) {
    forall i, j :: 0 <= i < j < |l| && Own(l[i], src) && Own(l[j], src) ==> !Carries(l[i], l[j].vless)
  }

  /** The list holds each configuration of `configs` once as a server of `src`, and no other server of `src`. */
  ghost predicate Holds(l: seq<Server>, src: string, configs: seq<Config>) {
    AllThere(l, src, configs) && OnlyThese(l, src, configs) && OnceEach(l, src)
  }

  lemma OnlyIncoming(configs: seq<Config>, src: string, background: bool, s: Server)
    requires s in Incoming(configs, src, background)
    ensures Own(s, src) && s.vless in configs
  {
    var b := Built(configs, src);
    var l := Unique(b);
    UniqueFrom(b);
    if background {
      MergedFrom([], l, src, s);
    }
    var o :| o in l && SameServer(s, o);
    var i :| 0 <= i < |b| && b[i] == o;
    assert o == New(configs[i], src);
  }

  lemma AllIncoming(configs: seq<Config>, src: string, background: bool, c: Config)
    requires c in configs
    ensures There(Incoming(configs, src, background), src, c)
  {
    var k :| 0 <= k < |configs| && configs[k] == c;
    var b := Built(configs, src);
    var l := Unique(b);
    UniqueConnections(b);
    assert Conn(b[k]) in Conns(l);
    var i :| 0 <= i < |l| && Conn(l[i]) == Conn(b[k]);
    TwinsShare(l[i], b[k]);
    UniqueFrom(b);
    assert l[i] in l;
    if background {
      BackgroundKeeps(l, src, l[i], c);
    } else {
      OnlyIncoming(configs, src, background, l[i]);
    }
  }

  lemma BackgroundKeeps(l: seq<Server>, src: string, s: Server, c: Config)
    requires s in l && Own(s, src) && Carries(s, c) && forall o :: o in l ==> Own(o, src)
    ensures There(Merged([], l, src), src, c)
  {
    var j := IncomingIsThere([], l, src, s);
    var m := Merged([], l, src)[j];
    assert m in Merged([], l, src) && Carries(m, c);
    MergedFrom([], l, src, m);
  }

  lemma IncomingFacts(configs: seq<Config>, src: string, background: bool)
    ensures var l := Incoming(configs, src, background);
            OnlyThese(l, src, configs) && AllThere(l, src, configs) && forall s :: s in l ==> Own(s, src)
  {
    var l := Incoming(configs, src, background);
    forall s | s in l ensures Own(s, src) && s.vless in configs {
      OnlyIncoming(configs, src, background, s);
    }
    forall c | c in configs ensures There(l, src, c) {
      AllIncoming(configs, src, background, c);
    }
  }

  lemma MergedStores(existing: seq<Server>, src: string, configs: seq<Config>, background: bool)
    requires Distinct(existing)
    ensures var m := Merged(existing, Incoming(configs, src, background), src);
            Holds(m, src, configs) && NotOwn(m, src) == NotOwn(existing, src)
  {
    IncomingFacts(configs, src, background);
    MergedHolds(existing, Incoming(configs, src, background), src, configs);
    OthersStay(existing, Incoming(configs, src, background), src);
  }

  lemma CommitLaw(d: Disk, id: string, url: string, configs: seq<Config>, background: bool)
    requires Distinct(d.servers)
    ensures var e := Apply(d, Commit(id, url, Incoming(configs, id, background)));
            && (Sub(id, url) !in d.subs ==> e == d)
            && (Sub(id, url) in d.subs ==>
                  e.subs == d.subs && Holds(e.servers, id, configs) && NotOwn(e.servers, id) == NotOwn(d.servers, id))
  {
    MergedStores(d.servers, id, configs, background);
  }

  lemma MergedHolds(existing: seq<Server>, incoming: seq<Server>, src: string, configs: seq<Config>)
    requires Distinct(existing) && OnlyThese(incoming, src, configs) && AllThere(incoming, src, configs)
    requires forall s :: s in incoming ==> Own(s, src)
    ensures Holds(Merged(existing, incoming, src), src, configs)
  {
    var m := Merged(existing, incoming, src);
    forall c | c in configs ensures There(m, src, c) {
      assert There(incoming, src, c);
      MergedThere(existing, incoming, src, c);
    }
    forall s | s in m && Own(s, src) ensures s.vless in configs {
      MergedFrom(existing, incoming, src, s);
    }
    forall i, j | 0 <= i < j < |m| && Own(m[i], src) && Own(m[j], src) ensures !Carries(m[i], m[j].vless) {
      NoTwinsAfterMerge(existing, incoming, src, i, j);
    }
  }

  lemma MergedThere(existing: seq<Server>, incoming: seq<Server>, src: string, c: Config)
    requires Distinct(existing) && There(incoming, src, c) && forall s :: s in incoming ==> Own(s, src)
    ensures There(Merged(existing, incoming, src), src, c)
  {
    var s :| s in incoming && Own(s, src) && Carries(s, c);
    var i := IncomingIsThere(existing, incoming, src, s);
    var m := Merged(existing, incoming, src);
    MergedLeads(existing, incoming, src);
    assert m[i] in m && Own(m[i], src) && Carries(m[i], c);
  }

  lemma OthersStay(existing: seq<Server>, incoming: seq<Server>, src: string)
    requires Distinct(existing) && (forall s :: s in incoming ==> Own(s, src))
    ensures NotOwn(Merged(existing, incoming, src), src) == NotOwn(existing, src)
  {
    var m, u := Merged(existing, incoming, src), Unique(incoming);
    MergeKeepsIdsApart(existing, incoming, src);
    MergedLeads(existing, incoming, src);
    NotOwnConcat(m[..|u|], m[|u|..], src);
    NoneButOwn(m[..|u|], src);
    assert m == m[..|u|] + m[|u|..];
    NotOwnTwice(existing, src);
  }

  lemma {:induction false} NotOwnConcat(a: seq<Server>, b: seq<Server>, src: string)
    ensures NotOwn(a + b, src) == NotOwn(a, src) + NotOwn(b, src)
  {
    if b == [] {
      assert a + b == a;
    } else {
      assert (a + b)[..|a + b| - 1] == a + b[..|b| - 1];
      NotOwnConcat(a, b[..|b| - 1], src);
    }
  }

  lemma {:induction false} NoneButOwn(l: seq<Server>, src: string)
    requires forall i :: 0 <= i < |l| ==> Own(l[i], src)
    ensures NotOwn(l, src) == []
  {
    if l != [] {
      NoneButOwn(l[..|l| - 1], src);
    }
  }

  /** The end of a sync that fetched `configs`: if the subscription still has the URL fetched from, the list holds each
      configuration once as a server of it and no other server of it, with every other server untouched and in order;
      otherwise nothing changes at all. */
  ghost predicate Stored(before: Disk, after: Disk, job: Job, configs: seq<Config>) {
    if Sub(job.sub, job.url) in before.subs
    then && after.subs == before.subs && Holds(after.servers, job.sub, configs)
         && NotOwn(after.servers, job.sub) == NotOwn(before.servers, job.sub)
    else after == before
  }

  lemma FinishStores(s: State, k: nat, configs: seq<Config>, background: bool)
    requires Inv(s) && k < |s.jobs| && s.jobs[k].incoming == Some(Incoming(configs, s.jobs[k].sub, background))
    ensures Enabled(s, Finish(k)) && Stored(s.disk, StoreRuns.Next(s, Finish(k)).disk, s.jobs[k], configs)
  {
    CommitLaw(s.disk, s.jobs[k].sub, s.jobs[k].url, configs, background);
  }

  /** Whatever happens between the answer and the end of a sync. */
  lemma SyncStoresItsAnswer(s: State, k: nat, configs: seq<Config>, background: bool, run: seq<Label>)
    requires Inv(s) && Enabled(s, Answer(k, configs, background))
    requires Allowed(StoreRuns.Next(s, Answer(k, configs, background)), run)
    ensures var before := After(StoreRuns.Next(s, Answer(k, configs, background)), run);
            && Enabled(before, Finish(k)) && before.jobs[k].sub == s.jobs[k].sub && before.jobs[k].url == s.jobs[k].url
            && Stored(before.disk, StoreRuns.Next(before, Finish(k)).disk, before.jobs[k], configs)
  {
    var answered := StoreRuns.Next(s, Answer(k, configs, background));
    StepInv(s, Answer(k, configs, background));
    AnswerIsKept(answered, run, k);
    ServersComeFromCurrentUrls(answered, run);
    FinishStores(After(answered, run), k, configs, background);
  }
}

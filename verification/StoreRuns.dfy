/**
 Every interleaving of transactions on the stores with syncs that fetch outside the lock.
 A sync reads its subscription, fetches from that URL for as long as it takes, and commits later.
 */
module StoreRuns {
  import opened Base
  import opened Vless
  import opened Servers
  import opened Merging
  import opened Stores

  /** A sync in flight: started for this subscription and URL, with the servers it fetched once it has them. */
  datatype Job = Job(sub: string, url: string, incoming: Option<seq<Server>>)

  /** A fetch for subscription `sub` from `url` brought this configuration. */
  datatype Fetch = Fetch(sub: string, url: string, config: Config)

  /** `fetched` records what every fetch ever brought. */
  datatype State = State(disk: Disk, jobs: seq<Job>, fetched: set<Fetch>)

  datatype Label =
    | Txn(t: Stores.Txn)
    | Begin(sub: string, url: string)
    | Answer(job: nat, configs: seq<Config>, background: bool)
    | Finish(job: nat)

  function Initial(): State { State(Disk([], []), [], {}) }

  function Brought(sub: string, url: string, configs: seq<Config>): set<Fetch> {
    set i | 0 <= i < |configs| :: Fetch(sub, url, configs[i])
  }

  /** A background refresh reconciles what it fetched with nothing before it hands it over. */
  function Incoming(configs: seq<Config>, src: string, background: bool): seq<Server> {
    var l := Unique(Built(configs, src));
    if background then Merged([], l, src) else l
  }

  ghost predicate Enabled(s: State, l: Label) {
    match l
    case Txn(AddSub(id, _)) => id != "" && !HasSub(s.disk.subs, id)
    case Txn(AddServer(id, _, _)) => id !in Ids(s.disk.servers)
    case Txn(Commit(_, _, _)) => false
    case Txn(_) => true
    case Begin(id, url) => Sub(id, url) in s.disk.subs
    case Answer(k, _, _) => k < |s.jobs| && s.jobs[k].incoming == None
    case Finish(k) => k < |s.jobs| && s.jobs[k].incoming.Some?
  }

  /** The transaction a label runs, if any. */
  function Runs(s: State, l: Label): Option<Stores.Txn> {
    match l
    case Txn(t) => Some(t)
    case Finish(k) =>
      if k < |s.jobs| && s.jobs[k].incoming.Some?
      then Some(Commit(s.jobs[k].sub, s.jobs[k].url, s.jobs[k].incoming.value)) else None
    case _ => None
  }

  function Next(s: State, l: Label): State {
    var disk := var t := Runs(s, l); if t.Some? then Apply(s.disk, t.value) else s.disk;
    match l
    case Txn(_) => s.(disk := disk)
    case Begin(id, url) => s.(jobs := s.jobs + [Job(id, url, None)])
    case Answer(k, configs, background) =>
      if k < |s.jobs| then
        var j := s.jobs[k];
        s.(jobs := s.jobs[k := j.(incoming := Some(Incoming(configs, j.sub, background)))],
           fetched := s.fetched + Brought(j.sub, j.url, configs))
      else s
    case Finish(k) => s.(disk := disk)
  }

  ghost predicate Allowed(s: State, run: seq<Label>)
    decreases |run|
  {
    run == [] || (Enabled(s, run[0]) && Allowed(Next(s, run[0]), run[1..]))
  }

  function After(s: State, run: seq<Label>): State
    decreases |run|
  {
    if run == [] then s else After(Next(s, run[0]), run[1..])
  }

  // ---------------------------------------------------------------- the invariant

  /** The server is the user's own, or its subscription exists and a fetch for it from its present URL brought it. */
  ghost predicate Grounded(subs: seq<Sub>, fetched: set<Fetch>, s: Server) {
    s.origin == Subscription ==>
      exists i :: 0 <= i < |subs| && subs[i].id == s.source && Fetch(s.source, subs[i].url, s.vless) in fetched
  }

  ghost predicate AllGrounded(d: Disk, fetched: set<Fetch>) {
    forall s :: s in d.servers ==> Grounded(d.subs, fetched, s)
  }

  ghost predicate JobSound(j: Job, fetched: set<Fetch>) {
    j.incoming.Some? ==>
      forall s :: s in j.incoming.value ==> Own(s, j.sub) && Fetch(j.sub, j.url, s.vless) in fetched
  }

  ghost predicate Kept(d: Disk) {
    && SubsDistinct(d.subs) && Distinct(d.servers)
    && (forall i :: 0 <= i < |d.subs| ==> d.subs[i].id != "")
    && (forall s :: s in d.servers && s.origin == Manual ==> s.source == "")
  }

  ghost predicate Inv(s: State) {
    Kept(s.disk) && AllGrounded(s.disk, s.fetched) && forall k :: 0 <= k < |s.jobs| ==> JobSound(s.jobs[k], s.fetched)
  }

  lemma {:induction false} ExceptFacts(l: seq<Server>, id: Id)
    ensures forall s :: s in Except(l, id) <==> s in l && s.id != id
    ensures Distinct(l) ==> Distinct(Except(l, id))
  {
    if l != [] {
      var k := |l| - 1;
      ExceptFacts(l[..k], id);
      assert l == l[..k] + [l[k]];
      var init := Except(l[..k], id);
      if Distinct(l) {
        forall i | 0 <= i < |init| ensures init[i].id != l[k].id {
          assert init[i] in l[..k];
        }
      }
    }
  }

  /** Every server of the merged list is another's, untouched, or an incoming one's twin. */
  lemma MergedFrom(existing: seq<Server>, incoming: seq<Server>, src: string, s: Server)
    requires Distinct(existing) && s in Merged(existing, incoming, src)
    ensures (s in existing && !Own(s, src)) || exists o :: o in incoming && SameServer(s, o)
  {
    MergeKeepsIdsApart(existing, incoming, src);
    NotOwnFacts(existing, src);
    UniqueFrom(incoming);
    var m, u := Merged(existing, incoming, src), Unique(incoming);
    EitherPart(m, |u|, s);
    if s !in m[|u|..] {
      var i :| 0 <= i < |u| && m[i] == s;
      assert u[i] in u && SameServer(s, u[i]);
    }
  }

  lemma EitherPart<T>(m: seq<T>, k: nat, x: T)
    requires k <= |m| && x in m
    ensures x in m[k..] || exists i :: 0 <= i < k && m[i] == x
  {}

  lemma CommitInv(d: Disk, fetched: set<Fetch>, id: string, url: string, incoming: seq<Server>)
    requires Kept(d) && AllGrounded(d, fetched) && JobSound(Job(id, url, Some(incoming)), fetched)
    ensures var e := Apply(d, Commit(id, url, incoming)); Kept(e) && AllGrounded(e, fetched)
  {
    if Sub(id, url) in d.subs {
      MergeKeepsIdsApart(d.servers, incoming, id);
      var m := Merged(d.servers, incoming, id);
      var i :| 0 <= i < |d.subs| && d.subs[i] == Sub(id, url);
      forall s | s in m ensures Grounded(d.subs, fetched, s) && (s.origin == Manual ==> s.source == "") {
        MergedFrom(d.servers, incoming, id, s);
        if !(s in d.servers && !Own(s, id)) {
          var o :| o in incoming && SameServer(s, o);
          assert Own(o, id) && Fetch(id, url, o.vless) in fetched;
          assert d.subs[i].id == s.source && Fetch(s.source, d.subs[i].url, s.vless) in fetched;
        }
      }
    }
  }

  lemma WithoutInv(d: Disk, fetched: set<Fetch>, id: string, subs: seq<Sub>)
    requires Kept(d) && AllGrounded(d, fetched)
    requires forall s :: s in d.subs && s.id != id ==> s in subs
    ensures AllGrounded(Disk(subs, Without(d.servers, id)), fetched) && Distinct(Without(d.servers, id))
    ensures forall s :: s in Without(d.servers, id) ==> s in d.servers
  {
    WithoutFacts(d.servers, id);
    forall s | s in Without(d.servers, id) ensures Grounded(subs, fetched, s) {
      if s.origin == Subscription {
        assert Grounded(d.subs, fetched, s);
        var i :| 0 <= i < |d.subs| && d.subs[i].id == s.source && Fetch(s.source, d.subs[i].url, s.vless) in fetched;
        assert d.subs[i] in d.subs;
        var k :| 0 <= k < |subs| && subs[k] == d.subs[i];
        assert subs[k].id == s.source;
      }
    }
  }

  lemma SubsInv(d: Disk, fetched: set<Fetch>, t: Stores.Txn)
    requires Kept(d) && AllGrounded(d, fetched) && (t.RemoveSub? || t.EditSub? || t.AddSub?)
    requires t.AddSub? ==> t.sub != "" && !HasSub(d.subs, t.sub)
    ensures Kept(Apply(d, t)) && AllGrounded(Apply(d, t), fetched)
  {
    match t
    case AddSub(id, url) =>
      forall s | s in d.servers ensures Grounded(d.subs + [Sub(id, url)], fetched, s) {
        assert Grounded(d.subs, fetched, s);
        if s.origin == Subscription {
          var i :| 0 <= i < |d.subs| && d.subs[i].id == s.source && Fetch(s.source, d.subs[i].url, s.vless) in fetched;
          assert (d.subs + [Sub(id, url)])[i].id == s.source;
        }
      }
    case RemoveSub(id) =>
      SubsExceptFacts(d.subs, id);
      var subs := SubsExcept(d.subs, id);
      forall i | 0 <= i < |subs| ensures subs[i].id != "" {
        assert subs[i] in subs;
      }
      WithoutInv(d, fetched, id, subs);
    case EditSub(id, url) =>
      var subs := Moved(d.subs, id, url);
      forall s | s in d.subs && s.id != id ensures s in subs {
        var i :| 0 <= i < |d.subs| && d.subs[i] == s;
        assert subs[i] == s;
      }
      WithoutInv(d, fetched, id, subs);
  }

  lemma ServersInv(d: Disk, fetched: set<Fetch>, t: Stores.Txn)
    requires Kept(d) && AllGrounded(d, fetched) && (t.Flip? || t.Measure? || t.EditServer? || t.AddServer? || t.RemoveServer?)
    requires t.AddServer? ==> t.id !in Ids(d.servers)
    ensures Kept(Apply(d, t)) && AllGrounded(Apply(d, t), fetched)
  {
    if t.AddServer? {
      forall i | 0 <= i < |d.servers| ensures d.servers[i].id != t.id {
        assert d.servers[i].id in Ids(d.servers);
      }
    } else if t.RemoveServer? {
      ExceptFacts(d.servers, t.id);
    } else {
      TouchedInv(d, fetched, t);
    }
  }

  lemma TouchedInv(d: Disk, fetched: set<Fetch>, t: Stores.Txn)
    requires Kept(d) && AllGrounded(d, fetched)
    ensures var e := d.(servers := Touched(t, d.servers)); Kept(e) && AllGrounded(e, fetched)
  {
    var m := Touched(t, d.servers);
    forall s | s in m ensures Grounded(d.subs, fetched, s) && (s.origin == Manual ==> s.source == "") {
      var i :| 0 <= i < |m| && m[i] == s;
      var o := d.servers[i];
      assert o in d.servers && s == Touch(t, o);
      assert Grounded(d.subs, fetched, o);
    }
  }

  lemma IncomingSound(configs: seq<Config>, src: string, background: bool, url: string)
    ensures JobSound(Job(src, url, Some(Incoming(configs, src, background))), Brought(src, url, configs))
  {
    var b := Built(configs, src);
    var l := Unique(b);
    UniqueFrom(b);
    forall s | s in Incoming(configs, src, background) ensures Own(s, src) && Fetch(src, url, s.vless) in Brought(src, url, configs) {
      if background {
        MergedFrom([], l, src, s);
      }
      var o :| o in l && SameServer(s, o);
      var i :| 0 <= i < |b| && b[i] == o;
      assert o == New(configs[i], src);
      assert Fetch(src, url, configs[i]) in Brought(src, url, configs);
    }
  }

  lemma GroundedGrows(d: Disk, fetched: set<Fetch>, more: set<Fetch>)
    requires AllGrounded(d, fetched)
    ensures AllGrounded(d, fetched + more)
  {}

  lemma StepInv(s: State, l: Label)
    requires Inv(s) && Enabled(s, l)
    ensures Inv(Next(s, l))
  {
    match l
    case Txn(t) =>
      if t.RemoveSub? || t.EditSub? || t.AddSub? {
        SubsInv(s.disk, s.fetched, t);
      } else {
        ServersInv(s.disk, s.fetched, t);
      }
    case Begin(id, url) =>
    case Answer(k, configs, background) =>
      var j := s.jobs[k];
      IncomingSound(configs, j.sub, background, j.url);
      GroundedGrows(s.disk, s.fetched, Brought(j.sub, j.url, configs));
    case Finish(k) =>
      CommitInv(s.disk, s.fetched, s.jobs[k].sub, s.jobs[k].url, s.jobs[k].incoming.value);
  }

  /** In every state of every run: identifiers are distinct, and each subscription server belongs to a
      subscription that exists and was fetched from the URL it has now. */
  lemma {:induction false} ServersComeFromCurrentUrls(s: State, run: seq<Label>)
    requires Inv(s) && Allowed(s, run)
    ensures Inv(After(s, run))
    decreases |run|
  {
    if run != [] {
      StepInv(s, run[0]);
      ServersComeFromCurrentUrls(Next(s, run[0]), run[1..]);
    }
  }

  /** So the deletion of orphans never has anything to delete: only the user's own servers are removable. */
  lemma NoOrphanToRemove(s: State, id: Id, active: Option<Id>)
    requires Inv(s)
    ensures Removable(s.disk, id, active) ==
            (active != Some(id) && exists o :: o in s.disk.servers && o.id == id && o.origin == Manual)
  {
    var l := s.disk.servers;
    if Removable(s.disk, id, active) {
      var i :| 0 <= i < |l| && l[i].id == id && (l[i].origin == Manual || !HasSub(s.disk.subs, l[i].source));
      assert l[i] in l && Grounded(s.disk.subs, s.fetched, l[i]);
    }
  }

  // ---------------------------------------------------------------- manual servers

  function Manuals(l: seq<Server>): seq<Server> {
    if l == [] then []
    else Manuals(l[..|l| - 1]) + if l[|l| - 1].origin == Manual then [l[|l| - 1]] else []
  }

  /** What happens to the user's own servers when nothing but their own operations could reach them, except
      that removing the subscription with the empty identifier takes them all. */
  function Lone(m: seq<Server>, t: Option<Stores.Txn>): seq<Server> {
    if t == None then m
    else match t.value
      case RemoveSub(id) => if id == "" then [] else m
      case RemoveServer(id, active) => if active == Some(id) then m else Except(m, id)
      case AddServer(_, _, _) => Apply(Disk([], m), t.value).servers
      case Flip(_) => Touched(t.value, m)
      case Measure(_) => Touched(t.value, m)
      case EditServer(_, _, _) => Touched(t.value, m)
      case _ => m
  }

  function LoneRun(s: State, run: seq<Label>, m: seq<Server>): seq<Server>
    decreases |run|
  {
    if run == [] then m else LoneRun(Next(s, run[0]), run[1..], Lone(m, Runs(s, run[0])))
  }

  lemma {:induction false} ManualsConcat(a: seq<Server>, b: seq<Server>)
    ensures Manuals(a + b) == Manuals(a) + Manuals(b)
  {
    if b == [] {
      assert a + b == a;
    } else {
      assert (a + b)[..|a + b| - 1] == a + b[..|b| - 1];
      ManualsConcat(a, b[..|b| - 1]);
    }
  }

  lemma ManualsSnoc(l: seq<Server>, s: Server)
    ensures Manuals(l + [s]) == Manuals(l) + if s.origin == Manual then [s] else []
  {}

  lemma {:induction false} NoManuals(l: seq<Server>)
    requires forall i :: 0 <= i < |l| ==> l[i].origin == Subscription
    ensures Manuals(l) == []
  {
    if l != [] {
      NoManuals(l[..|l| - 1]);
    }
  }

  lemma {:induction false} ManualsOfNotOwn(l: seq<Server>, src: string)
    ensures Manuals(NotOwn(l, src)) == Manuals(l)
  {
    if l != [] {
      var k := |l| - 1;
      ManualsOfNotOwn(l[..k], src);
      var rest := NotOwn(l[..k], src);
      ManualsSnoc(rest, l[k]);
      assert rest + [] == rest;
    }
  }

  lemma {:induction false} ManualsOfWithout(l: seq<Server>, src: string)
    requires forall s :: s in l && s.origin == Manual ==> s.source == ""
    ensures Manuals(Without(l, src)) == if src == "" then [] else Manuals(l)
  {
    if l != [] {
      var init, s := l[..|l| - 1], l[|l| - 1];
      assert s in l && l == init + [s];
      ManualsOfWithout(init, src);
      ManualsSnoc(init, s);
      ManualsSnoc(Without(init, src), s);
      assert Without(init, src) + [] == Without(init, src);
    }
  }

  lemma ExceptSnoc(l: seq<Server>, s: Server, id: Id)
    ensures Except(l + [s], id) == Except(l, id) + if s.id == id then [] else [s]
  {}

  lemma {:induction false} ManualsOfExcept(l: seq<Server>, id: Id)
    ensures Manuals(Except(l, id)) == Except(Manuals(l), id)
  {
    if l != [] {
      var k := |l| - 1;
      ManualsOfExcept(l[..k], id);
      var rest := Except(l[..k], id);
      ManualsSnoc(rest, l[k]);
      assert rest + [] == rest;
      var m := Manuals(l[..k]);
      ExceptSnoc(m, l[k], id);
      assert m + [] == m;
    }
  }

  lemma {:induction false} ManualsOfTouched(t: Stores.Txn, l: seq<Server>)
    ensures Manuals(Touched(t, l)) == Touched(t, Manuals(l))
  {
    if l != [] {
      var k := |l| - 1;
      ManualsOfTouched(t, l[..k]);
      assert Touched(t, l)[..k] == Touched(t, l[..k]);
      var m := Manuals(l[..k]);
      assert Touched(t, m + [l[k]]) == Touched(t, m) + [Touch(t, l[k])];
    }
  }

  lemma ManualsOfMerged(existing: seq<Server>, incoming: seq<Server>, src: string)
    requires Distinct(existing) && (forall s :: s in incoming ==> Own(s, src))
    ensures Manuals(Merged(existing, incoming, src)) == Manuals(existing)
  {
    MergeKeepsIdsApart(existing, incoming, src);
    MergedLeads(existing, incoming, src);
    var m, u := Merged(existing, incoming, src), Unique(incoming);
    NoManuals(m[..|u|]);
    ManualsConcat(m[..|u|], m[|u|..]);
    assert m == m[..|u|] + m[|u|..];
    ManualsOfNotOwn(existing, src);
  }

  lemma {:induction false} ManualsAre(l: seq<Server>)
    ensures forall s :: s in Manuals(l) <==> s in l && s.origin == Manual
  {
    if l != [] {
      ManualsAre(l[..|l| - 1]);
      assert l == l[..|l| - 1] + [l[|l| - 1]];
    }
  }

  lemma ManualsOfRemoved(s: State, id: Id, active: Option<Id>)
    requires Inv(s)
    ensures Manuals(Apply(s.disk, RemoveServer(id, active)).servers) == Lone(Manuals(s.disk.servers), Some(RemoveServer(id, active)))
  {
    NoOrphanToRemove(s, id, active);
    ManualsOfExcept(s.disk.servers, id);
    var m := Manuals(s.disk.servers);
    ManualsAre(s.disk.servers);
    if active != Some(id) && !Removable(s.disk, id, active) {
      forall i | 0 <= i < |m| ensures m[i].id != id {
        assert m[i] in m;
      }
      ExceptNone(m, id);
    }
  }

  lemma StepLone(s: State, l: Label)
    requires Inv(s) && Enabled(s, l)
    ensures Manuals(Next(s, l).disk.servers) == Lone(Manuals(s.disk.servers), Runs(s, l))
  {
    var list := s.disk.servers;
    match l
    case Txn(RemoveSub(id)) => ManualsOfWithout(list, id);
    case Txn(EditSub(id, url)) =>
      ManualsOfWithout(list, id);
    case Txn(RemoveServer(id, active)) => ManualsOfRemoved(s, id, active);
    case Txn(AddServer(id, name, c)) =>
      var added := Server(id, Manual, "", Shown(name, c), c.remark, c, [], None, false, false);
      ManualsConcat(list, [added]);
      assert Manuals([added]) == [added];
    case Txn(t) => ManualsOfTouched(t, list);
    case Finish(k) => ManualsOfMerged(list, s.jobs[k].incoming.value, s.jobs[k].sub);
    case _ =>
  }

  /** Over a whole run the user's own servers evolve as if the subscriptions, their syncs and everything those
      do to the list did not exist, bar the one removal above. */
  lemma {:induction false} ManualServersAreTheirOwn(s: State, run: seq<Label>)
    requires Inv(s) && Allowed(s, run)
    ensures Manuals(After(s, run).disk.servers) == LoneRun(s, run, Manuals(s.disk.servers))
    decreases |run|
  {
    if run != [] {
      StepInv(s, run[0]);
      StepLone(s, run[0]);
      ManualServersAreTheirOwn(Next(s, run[0]), run[1..]);
    }
  }

  /** Both hold of every run from empty stores. */
  lemma EveryRun(run: seq<Label>)
    requires Allowed(Initial(), run)
    ensures Inv(After(Initial(), run)) && Manuals(After(Initial(), run).disk.servers) == LoneRun(Initial(), run, [])
  {
    ServersComeFromCurrentUrls(Initial(), run);
    ManualServersAreTheirOwn(Initial(), run);
  }

  /** Removing a subscription leaves the user's own servers alone exactly when the identifier is not empty, or
      there are none. */
  lemma RemovalSparesManuals(s: State, id: string)
    requires Inv(s)
    ensures (Manuals(Apply(s.disk, RemoveSub(id)).servers) == Manuals(s.disk.servers)) ==
            (id != "" || Manuals(s.disk.servers) == [])
  {
    ManualsOfWithout(s.disk.servers, id);
  }

  /** A run in which a manual server is lost to such a removal. */
  lemma EmptyRemovalTakesManuals(c: Config)
    ensures var run := [Txn(AddServer(Named("m1"), "home", c)), Txn(RemoveSub(""))];
            && Allowed(Initial(), run)
            && |Manuals(After(Initial(), run[..1]).disk.servers)| == 1
            && Manuals(After(Initial(), run).disk.servers) == []
  {
    var add, drop := Txn(AddServer(Named("m1"), "home", c)), Txn(RemoveSub(""));
    var run := [add, drop];
    var s1 := Next(Initial(), add);
    assert run[1..] == [drop] && run[1..][1..] == [] && run[..1][1..] == [];
    assert Ids(Initial().disk.servers) == {};
    var x := s1.disk.servers[0];
    assert s1.disk.servers == [x] && x.origin == Manual && x.source == "";
    ManualsSnoc([], x);
    assert [] + [x] == [x] && [x][..0] == [];
    assert Without([x], "") == [];
    assert After(Initial(), run[..1]) == After(s1, []);
    assert Enabled(Initial(), add) && Enabled(s1, drop);
    assert Allowed(Next(s1, drop), []);
    assert Allowed(s1, [drop]);
    assert After(s1, [drop]) == Next(s1, drop);
  }
}

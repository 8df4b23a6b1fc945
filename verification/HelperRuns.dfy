/**
 Every interleaving of start, stop, shutdown, core exits and crash watchers in the
 helper. Each step is one section under `chainMu`.
 */
module HelperRuns {
  import opened Base
  import opened HelperSession

  datatype Watch = Launched | Waiting | Gone

  datatype Caller = Rpc | Shutdown | Watcher

  /** One teardown pass: who ran it, over which session, what it undid, whether it forgot the route snapshot, and
      the routes as it left them. */
  datatype Tore = Tore(who: Caller, id: nat, undone: set<Kind>, released: bool, forgot: bool, routes: set<Route>)

  /** `taken` is the routing table as it was when each TUN session was started. */
  datatype State = State(active: Option<nat>, sessions: map<nat, Session>, watchers: map<nat, Watch>,
                         host: Host, next: nat, log: seq<Tore>, taken: map<nat, Option<set<Route>>>)

  datatype Step =
    | Start(a: Args, l: Luck)
    | Stop(wanted: Option<nat>, p: Pass)
    | Down(p: Pass)
    | CoreExits(id: nat, k: Kind)
    | RoutesChange(routes: set<Route>)                    // cores, adapters and other programs rewrite the table
    | WatchBegins(id: nat)
    | WatchFires(id: nat, p: Pass)

  function Started(s: State, a: Args, l: Luck): State {
    var t := s.(host := StartedHost(s.host, s.next, a, l), next := s.next + 1);
    if Complete(a, l)
    then t.(active := Some(s.next), sessions := s.sessions[s.next := StartedSession(s.host, a, l)],
            watchers := s.watchers[s.next := Launched], taken := s.taken[s.next := if a.tun then Some(s.host.routes) else None])
    else t
  }

  /** One pass over the active session. */
  function Torn(s: State, who: Caller, p: Pass): State
    requires s.active.Some? && s.active.value in s.sessions
  {
    var id := s.active.value;
    var v := s.sessions[id];
    var errs := PassErrors(v, s.host, p);
    s.(active := if errs then s.active else None,
       sessions := s.sessions[id := PassSession(v, s.host, p)],
       host := PassHost(v, id, s.host, p),
       log := s.log + [Tore(who, id, v.holds - p.fails, !errs, v.snapshot.Some? && !RoutesFail(v, s.host, p),
                            RestoredRoutes(v, s.host, p))])
  }

  /** `activeSess == sess && !sess.stopping`: what IsChainActive reports, and the watcher's guard. */
  predicate Live(s: State, id: nat) {
    s.active == Some(id) && id in s.sessions && !s.sessions[id].stopping
  }

  function Next(s: State, st: Step): Option<State> {
    match st
    case Start(a, l) => if s.active.Some? then Some(s) else Some(Started(s, a, l))
    case Stop(wanted, p) =>
      if s.active.None? || s.active.value !in s.sessions || (wanted.Some? && wanted != s.active) then Some(s)
      else Some(Torn(s, Rpc, p))
    case Down(p) =>
      if s.active.None? || s.active.value !in s.sessions then Some(s) else Some(Torn(s, Shutdown, p))
    case CoreExits(id, k) =>
      if k == SingboxProc || k == XrayProc then Some(s.(host := s.host.(up := s.host.up - {(id, k)}))) else None
    case RoutesChange(routes) => Some(s.(host := s.host.(routes := routes)))
    case WatchBegins(id) =>
      if id in s.watchers && s.watchers[id].Launched?
      then Some(s.(watchers := s.watchers[id := if Live(s, id) then Waiting else Gone]))
      else None
    case WatchFires(id, p) =>
      if id in s.watchers && s.watchers[id].Waiting?
         && ((id, SingboxProc) !in s.host.up || (id, XrayProc) !in s.host.up)
      then
        var t := if Live(s, id) then Torn(s, Watcher, p) else s;
        Some(t.(watchers := t.watchers[id := Gone]))
      else None
  }

  function Exec(s: State, steps: seq<Step>): Option<State> {
    if steps == [] then Some(s)
    else
      var r := Exec(s, steps[..|steps| - 1]);
      if r.None? then None else Next(r.value, steps[|steps| - 1])
  }

  function Boot(h: Host): State { State(None, map[], map[], h, 0, [], map[]) }

  ghost predicate Reachable(s: State) {
    exists h: Host, steps: seq<Step> :: h.up == {} && Exec(Boot(h), steps) == Some(s)
  }

  // ---------------------------------------------------------------- invariants

  ghost predicate Inv(s: State) {
    && (s.active.Some? ==> s.active.value in s.sessions)
    && (forall id :: id in s.sessions ==> id < s.next && id in s.watchers)
    && (forall id :: id in s.watchers ==> id in s.sessions)
    && (forall e :: e in s.host.up ==> e.0 < s.next)
    && (forall e :: e in s.host.up && e.0 in s.sessions ==> s.active == Some(e.0) && e.1 in s.sessions[e.0].holds)
    && (forall id :: id in s.sessions && s.active != Some(id) ==>
          s.sessions[id].stopping && s.sessions[id].holds == {} && s.sessions[id].snapshot.None?)
    && (forall id :: id in s.watchers && s.watchers[id].Gone? ==> !Live(s, id))
  }

  /** What the log of passes shows at any time. */
  ghost predicate LogInv(s: State) {
    && (forall i :: 0 <= i < |s.log| ==> Past(s, s.log[i]))
    && (forall i, j :: 0 <= i < j < |s.log| && s.log[i].id == s.log[j].id ==> Ordered(s.log[i], s.log[j]))
  }

  /** A pass in the log: its session is stopping for good and no longer holds what the pass undid. */
  ghost predicate Past(s: State, e: Tore) {
    && e.id in s.sessions && s.sessions[e.id].stopping && e.undone !! s.sessions[e.id].holds
    && (e.released ==> s.active != Some(e.id))
  }

  /** Two passes over the same session: the earlier did not release it, the later was not a watcher's, and
      they undid different things. */
  predicate Ordered(e: Tore, f: Tore) { !e.released && !f.who.Watcher? && e.undone !! f.undone }

  lemma StartInv(s: State, a: Args, l: Luck)
    requires Inv(s) && LogInv(s) && s.active.None?
    ensures Inv(Started(s, a, l)) && LogInv(Started(s, a, l))
  {
    if Complete(a, l) {
      StartsInv(s, a, l);
    }
  }

  lemma StartsInv(s: State, a: Args, l: Luck)
    requires Inv(s) && LogInv(s) && s.active.None? && Complete(a, l)
    ensures Inv(Started(s, a, l)) && LogInv(Started(s, a, l))
  {}

  lemma TornInv(s: State, who: Caller, p: Pass)
    requires Inv(s) && s.active.Some?
    ensures Inv(Torn(s, who, p))
  {
    var t := Torn(s, who, p);
    var id := s.active.value;
    var v := s.sessions[id];
    forall e | e in t.host.up && e.0 == id ensures e.1 in v.holds * p.fails {
      assert e == (id, e.1);
      assert e.1 in v.holds - p.fails ==> e in Label(id, v.holds - p.fails);
    }
  }

  lemma TornLog(s: State, who: Caller, p: Pass)
    requires Inv(s) && LogInv(s) && s.active.Some? && (who.Watcher? ==> Live(s, s.active.value))
    ensures LogInv(Torn(s, who, p))
  {}

  lemma WatchMoves(s: State, id: nat, w: Watch)
    requires Inv(s) && LogInv(s) && id in s.watchers && (w.Gone? ==> !Live(s, id))
    ensures Inv(s.(watchers := s.watchers[id := w])) && LogInv(s.(watchers := s.watchers[id := w]))
  {}

  lemma WatchInv(s: State, st: Step, t: State)
    requires Inv(s) && LogInv(s) && Next(s, st) == Some(t) && (st.WatchBegins? || st.WatchFires?)
    ensures Inv(t) && LogInv(t)
  {
    if st.WatchFires? {
      if Live(s, st.id) {
        TornInv(s, Watcher, st.p);
        TornLog(s, Watcher, st.p);
        WatchMoves(Torn(s, Watcher, st.p), st.id, Gone);
      } else {
        WatchMoves(s, st.id, Gone);
      }
    } else {
      WatchMoves(s, st.id, if Live(s, st.id) then Waiting else Gone);
    }
  }

  lemma NextInv(s: State, st: Step, t: State)
    requires Inv(s) && LogInv(s) && Next(s, st) == Some(t)
    ensures Inv(t) && LogInv(t)
  {
    match st
    case Start(a, l) => if s.active.None? { StartInv(s, a, l); }
    case Stop(wanted, p) => if t != s { TornInv(s, Rpc, p); TornLog(s, Rpc, p); }
    case Down(p) => if t != s { TornInv(s, Shutdown, p); TornLog(s, Shutdown, p); }
    case CoreExits(_, _) =>
    case RoutesChange(_) =>
    case _ => WatchInv(s, st, t);
  }

  lemma {:induction false} RunInv(s: State, steps: seq<Step>, t: State)
    requires Inv(s) && LogInv(s) && Exec(s, steps) == Some(t)
    ensures Inv(t) && LogInv(t)
  {
    if steps != [] {
      var mid := Exec(s, steps[..|steps| - 1]).value;
      RunInv(s, steps[..|steps| - 1], mid);
      NextInv(mid, steps[|steps| - 1], t);
    }
  }

  lemma ReachableInv(s: State)
    requires Reachable(s)
    ensures Inv(s) && LogInv(s)
  {
    var h: Host, steps: seq<Step> :| h.up == {} && Exec(Boot(h), steps) == Some(s);
    RunInv(Boot(h), steps, s);
  }

  // ---------------------------------------------------------------- release

  /** A session leaves the record only in a pass over it, exactly when nothing went wrong in that pass, and takes the
      journal with it; until then every start is refused. */
  lemma ReleasedOnlyWhenClean(s: State, st: Step, t: State, id: nat)
    requires Reachable(s) && s.active == Some(id) && Next(s, st) == Some(t)
    ensures id in s.sessions && (st.Start? ==> t == s)
    ensures t.active != s.active ==> t.active.None? && !t.host.journal && (st.Stop? || st.Down? || (st.WatchFires? && st.id == id))
    ensures (st.Stop? && (st.wanted.None? || st.wanted == Some(id))) || st.Down? || (st.WatchFires? && st.id == id && Live(s, id)) ==>
              (t.active.None? <==> CleanPass(s.sessions[id], s.host, st.p))
  {
    ReachableInv(s);
    if st.Stop? || st.Down? || st.WatchFires? {
      PassDoes(s.sessions[id], id, s.host, st.p);
    }
  }

  lemma NextKeeps(s: State, st: Step, t: State)
    requires Next(s, st) == Some(t)
    ensures (s.active.Some? ==> s.host.journal) ==> (t.active.Some? ==> t.host.journal)
    ensures s.next <= t.next && s.sessions.Keys <= t.sessions.Keys
    ensures forall id :: id in s.taken && id < s.next ==> id in t.taken && t.taken[id] == s.taken[id]
  {}

  /** While a session is in the record, so is its journal. */
  lemma {:induction false} JournalStays(s: State, steps: seq<Step>, t: State)
    requires (s.active.Some? ==> s.host.journal) && Exec(s, steps) == Some(t)
    ensures t.active.Some? ==> t.host.journal
  {
    if steps != [] {
      var mid := Exec(s, steps[..|steps| - 1]).value;
      JournalStays(s, steps[..|steps| - 1], mid);
      NextKeeps(mid, steps[|steps| - 1], t);
    }
  }

  /** A start that succeeds puts up exactly what was wanted, and its session is reported active. */
  lemma SuccessfulStartHolds(s: State, a: Args, l: Luck, t: State)
    requires Reachable(s) && s.active.None? && Complete(a, l) && Next(s, Start(a, l)) == Some(t)
    ensures Live(t, s.next) && t.host.journal && t.host.routes == s.host.routes
    ensures forall k: Kind :: ((s.next, k) in t.host.up <==> Wanted(k, a, l)) && (k in t.sessions[s.next].holds <==> Wanted(k, a, l))
    ensures forall e :: e in t.host.up && e.0 != s.next <==> e in s.host.up
    ensures t.sessions[s.next].snapshot == if a.tun then Some(s.host.routes) else None
  {
    ReachableInv(s);
    SuccessfulStartRecords(s.host, s.next, a, l);
  }

  /** Once a session is out of the record, whatever passes it took and whatever failed in them: nothing it put
      on the host is outstanding, and its record is empty. */
  lemma NothingOutstanding(s: State, id: nat)
    requires Reachable(s) && id in s.sessions && s.active != Some(id)
    ensures forall k: Kind :: (id, k) !in s.host.up
    ensures s.sessions[id].holds == {} && s.sessions[id].snapshot.None?
  {
    ReachableInv(s);
  }

  // ---------------------------------------------------------------- routes

  /** A pass forgets the route snapshot only with every snapshotted route in place. */
  lemma PassRestores(v: Session, h: Host, p: Pass)
    requires v.snapshot.Some? && !RoutesFail(v, h, p)
    ensures v.snapshot.value <= RestoredRoutes(v, h, p)
  {
    var missing := v.snapshot.value - h.routes;
    forall r | r in missing ensures r !in p.addFails {
      assert r !in missing * p.addFails;
    }
  }

  /** Pass `j` forgot the snapshot of session `id`, and left every route of it in place. */
  ghost predicate GaveBack(s: State, id: nat, j: nat) {
    && j < |s.log| && s.log[j].id == id && s.log[j].forgot
    && id in s.taken && s.taken[id].Some? && s.taken[id].value <= s.log[j].routes
  }

  ghost predicate KeptOrBack(s: State, id: nat)
    requires id in s.sessions && id in s.taken
  {
    s.sessions[id].snapshot == s.taken[id] || (s.sessions[id].snapshot.None? && exists j: nat :: GaveBack(s, id, j))
  }

  /** A session still has the snapshot it began with, or one pass gave the routes back. */
  ghost predicate RouteInv(s: State) {
    && (forall id :: id in s.taken ==> id < s.next)
    && (forall id :: id in s.sessions ==> id in s.taken && KeptOrBack(s, id))
    && (forall j :: 0 <= j < |s.log| && s.log[j].forgot ==> s.log[j].id in s.sessions && s.sessions[s.log[j].id].snapshot.None?)
    && (forall i, j :: 0 <= i < j < |s.log| && s.log[i].id == s.log[j].id ==> !s.log[i].forgot || !s.log[j].forgot)
  }

  lemma GaveBackStays(s: State, t: State, id: nat, j: nat)
    requires GaveBack(s, id, j) && s.log <= t.log && id in t.taken && t.taken[id] == s.taken[id]
    ensures GaveBack(t, id, j)
  {}

  lemma TornRoutes(s: State, who: Caller, p: Pass)
    requires Inv(s) && RouteInv(s) && s.active.Some?
    ensures RouteInv(Torn(s, who, p))
  {
    var t, id := Torn(s, who, p), s.active.value;
    var v := s.sessions[id];
    if v.snapshot.Some? && !RoutesFail(v, s.host, p) {
      PassRestores(v, s.host, p);
      assert GaveBack(t, id, |s.log|);
    }
    forall other | other in s.sessions && exists j: nat :: GaveBack(s, other, j) ensures exists j: nat :: GaveBack(t, other, j) {
      var j: nat :| GaveBack(s, other, j);
      GaveBackStays(s, t, other, j);
    }
  }

  lemma StartRoutes(s: State, a: Args, l: Luck)
    requires Inv(s) && RouteInv(s) && s.active.None?
    ensures RouteInv(Started(s, a, l))
  {
    var t := Started(s, a, l);
    if Complete(a, l) {
      forall other | other in s.sessions ensures other in t.taken && KeptOrBack(t, other) {
        if j: nat :| GaveBack(s, other, j) {
          GaveBackStays(s, t, other, j);
        }
      }
    } else {
      QuietRoutes(s, t);
    }
  }

  /** A step that touches neither the sessions nor the log. */
  lemma QuietRoutes(s: State, t: State)
    requires RouteInv(s) && t.sessions == s.sessions && t.log == s.log && t.taken == s.taken && t.next >= s.next
    ensures RouteInv(t)
  {
    forall other | other in s.sessions && exists j: nat :: GaveBack(s, other, j) ensures exists j: nat :: GaveBack(t, other, j) {
      var j: nat :| GaveBack(s, other, j);
      GaveBackStays(s, t, other, j);
    }
  }

  lemma NextRoutes(s: State, st: Step, t: State)
    requires Inv(s) && RouteInv(s) && Next(s, st) == Some(t)
    ensures RouteInv(t)
  {
    if st.Start? && s.active.None? {
      StartRoutes(s, st.a, st.l);
    } else if t.log != s.log {
      var who := if st.Stop? then Rpc else if st.Down? then Shutdown else Watcher;
      TornRoutes(s, who, st.p);
      QuietRoutes(Torn(s, who, st.p), t);
    } else {
      QuietRoutes(s, t);
    }
  }

  lemma {:induction false} RunRoutes(s: State, steps: seq<Step>, t: State)
    requires Inv(s) && LogInv(s) && RouteInv(s) && Exec(s, steps) == Some(t)
    ensures RouteInv(t)
  {
    if steps != [] {
      var init := steps[..|steps| - 1];
      var mid := Exec(s, init).value;
      RunInv(s, init, mid);
      RunRoutes(s, init, mid);
      NextRoutes(mid, steps[|steps| - 1], t);
    }
  }

  /** However the routing table is rewritten under a session, and whatever fails in its passes: a session that no
      longer has its snapshot, as every released one, had exactly one pass that forgot it, and that pass ended with
      every route of the snapshot in place. */
  lemma RoutesAreBack(s: State, id: nat)
    requires Reachable(s) && id in s.sessions && (s.active != Some(id) || s.sessions[id].snapshot.None?)
    ensures id in s.taken && (s.taken[id].Some? ==> exists j: nat :: GaveBack(s, id, j))
    ensures forall i, j :: 0 <= i < j < |s.log| && s.log[i].id == s.log[j].id ==> !s.log[i].forgot || !s.log[j].forgot
  {
    var h: Host, steps: seq<Step> :| h.up == {} && Exec(Boot(h), steps) == Some(s);
    RunRoutes(Boot(h), steps, s);
    ReachableInv(s);
  }

  lemma {:induction false} TakenStays(s: State, steps: seq<Step>, t: State, id: nat)
    requires id in s.taken && id < s.next && Exec(s, steps) == Some(t)
    ensures id in t.taken && t.taken[id] == s.taken[id] && id < t.next && (id in s.sessions ==> id in t.sessions)
  {
    if steps != [] {
      var mid := Exec(s, steps[..|steps| - 1]).value;
      TakenStays(s, steps[..|steps| - 1], mid, id);
      NextKeeps(mid, steps[|steps| - 1], t);
    }
  }

  /** After a TUN start that succeeded, however the run goes on: once the session is out of the record, one of its passes
      ended with every route in place that the host had before the start. */
  lemma RoutesBeforeTheStartAreBack(s: State, a: Args, l: Luck, t: State, steps: seq<Step>, u: State)
    requires Reachable(s) && s.active.None? && a.tun && Complete(a, l) && Next(s, Start(a, l)) == Some(t)
    requires Exec(t, steps) == Some(u) && u.active != Some(s.next)
    ensures exists j: nat :: j < |u.log| && u.log[j].id == s.next && u.log[j].forgot && s.host.routes <= u.log[j].routes
  {
    var h: Host, before: seq<Step> :| h.up == {} && Exec(Boot(h), before) == Some(s);
    ExecConcat(Boot(h), before + [Start(a, l)], steps, t, u) by {
      var more := before + [Start(a, l)];
      assert more[..|more| - 1] == before;
    }
    assert Reachable(u);
    TakenStays(t, steps, u, s.next);
    RoutesAreBack(u, s.next);
    var j: nat :| GaveBack(u, s.next, j);
  }

  lemma {:induction false} ExecConcat(s: State, a: seq<Step>, b: seq<Step>, t: State, u: State)
    requires Exec(s, a) == Some(t) && Exec(t, b) == Some(u)
    ensures Exec(s, a + b) == Some(u)
  {
    if b == [] {
      assert a + b == a;
    } else {
      var init := b[..|b| - 1];
      assert (a + b)[..|a + b| - 1] == a + init;
      ExecConcat(s, a, init, t, Exec(t, init).value);
    }
  }

  // ---------------------------------------------------------------- passes

  /** Over any number of passes each resource is undone at most once, and a released session is never passed over again. */
  lemma UndoneAtMostOnce(s: State, i: nat, j: nat)
    requires Reachable(s) && i < j < |s.log| && s.log[i].id == s.log[j].id
    ensures s.log[i].undone !! s.log[j].undone && !s.log[i].released
  {
    ReachableInv(s);
    assert Ordered(s.log[i], s.log[j]);
  }

  /** The next pass in which nothing goes wrong releases the session, however many failed before it. */
  lemma RetrySucceeds(s: State, id: nat, p: Pass)
    requires Reachable(s) && s.active == Some(id)
    requires p.fails == {} && !p.readFails && p.addFails == {} && !p.closeFails && !p.clearFails
    ensures Next(s, Stop(None, p)).Some? && Next(s, Stop(None, p)).value.active.None?
  {
    ReachableInv(s);
  }

  // ---------------------------------------------------------------- what is reported

  predicate Tried(s: State, id: nat) { exists j :: 0 <= j < |s.log| && s.log[j].id == id }

  ghost predicate TriedInv(s: State) { forall id :: id in s.sessions && s.sessions[id].stopping ==> Tried(s, id) }

  lemma NextTried(s: State, st: Step, t: State)
    requires TriedInv(s) && Next(s, st) == Some(t)
    ensures TriedInv(t)
  {
    forall id | id in t.sessions && t.sessions[id].stopping ensures Tried(t, id) {
      if id in s.sessions && s.sessions[id].stopping {
        var j :| 0 <= j < |s.log| && s.log[j].id == id;
        assert t.log[j].id == id;
      } else {
        assert t.log[|s.log|].id == id;
      }
    }
  }

  lemma {:induction false} RunTried(s: State, steps: seq<Step>, t: State)
    requires TriedInv(s) && Exec(s, steps) == Some(t)
    ensures TriedInv(t)
  {
    if steps != [] {
      var mid := Exec(s, steps[..|steps| - 1]).value;
      RunTried(s, steps[..|steps| - 1], mid);
      NextTried(mid, steps[|steps| - 1], t);
    }
  }

  /** `activeSess != nil && activeSess.stopping`: what IsCleanupPending reports. */
  predicate CleanupPending(s: State, id: nat) {
    s.active == Some(id) && id in s.sessions && s.sessions[id].stopping
  }

  /** A clean-up is reported pending exactly when a teardown pass over the session in the record has run and failed;
      until a first pass has run, the session is reported active. */
  lemma PendingMeansAFailedPass(s: State, id: nat)
    requires Reachable(s) && s.active == Some(id)
    ensures CleanupPending(s, id) == Tried(s, id) && Live(s, id) == !Tried(s, id)
    ensures forall j :: 0 <= j < |s.log| && s.log[j].id == id ==> !s.log[j].released
  {
    var h: Host, steps: seq<Step> :| h.up == {} && Exec(Boot(h), steps) == Some(s);
    RunTried(Boot(h), steps, s);
    ReachableInv(s);
  }

  // ---------------------------------------------------------------- crash watchers

  /** A watcher's pass is over its own session, is the first pass that session ever gets (so it was not stopping),
      and is that watcher's only one. */
  lemma WatcherActsOnce(s: State, i: nat, j: nat)
    requires Reachable(s) && i < |s.log| && j < |s.log| && s.log[j].who.Watcher? && s.log[i].id == s.log[j].id
    ensures j <= i
    ensures s.log[i].who.Watcher? ==> i == j
  {
    ReachableInv(s);
  }

  /** A firing watcher touches no session but the one it was launched for. */
  lemma WatcherMindsItsOwn(s: State, id: nat, p: Pass, t: State)
    requires Reachable(s) && Next(s, WatchFires(id, p)) == Some(t)
    ensures forall other :: other in s.sessions && other != id ==> other in t.sessions && t.sessions[other] == s.sessions[other]
    ensures !Live(s, id) ==> t == s.(watchers := s.watchers[id := Gone])
  {}

  /** After its watcher has returned, a session is never again reported active, however the run goes on. */
  lemma NeverActiveAgain(s: State, steps: seq<Step>, t: State, id: nat)
    requires Reachable(s) && id in s.watchers && s.watchers[id].Gone? && Exec(s, steps) == Some(t)
    ensures !Live(t, id)
  {
    ReachableInv(s);
    StaysGone(s, steps, t, id);
  }

  lemma {:induction false} StaysGone(s: State, steps: seq<Step>, t: State, id: nat)
    requires Inv(s) && LogInv(s) && id in s.watchers && s.watchers[id].Gone? && Exec(s, steps) == Some(t)
    ensures Inv(t) && LogInv(t) && id in t.watchers && t.watchers[id].Gone?
  {
    if steps != [] {
      var mid := Exec(s, steps[..|steps| - 1]).value;
      StaysGone(s, steps[..|steps| - 1], mid, id);
      NextInv(mid, steps[|steps| - 1], t);
      NextGone(mid, steps[|steps| - 1], t, id);
    }
  }

  lemma NextGone(s: State, st: Step, t: State, id: nat)
    requires id in s.watchers && id < s.next && s.watchers[id].Gone? && Next(s, st) == Some(t)
    ensures id in t.watchers && t.watchers[id].Gone?
  {}

  // ---------------------------------------------------------------- all or nothing

  /** A start that fails at any stage leaves the host as it was exactly when the rollback undid everything that
      had been applied, and never leaves a session behind. */
  lemma FailedStartLeavesNothing(s: State, a: Args, l: Luck, t: State)
    requires Reachable(s) && s.active.None? && !Complete(a, l) && Next(s, Start(a, l)) == Some(t)
    ensures t.active.None? && t.sessions == s.sessions
    ensures t.host == s.host <==> AppliedSet(a, l) * l.undoFails == {}
  {
    ReachableInv(s);
    var left := AppliedSet(a, l) * l.undoFails;
    if left != {} {
      var k :| k in left;
      assert (s.next, k) in Label(s.next, left);
      assert (s.next, k) !in s.host.up;
    } else {
      assert Label(s.next, left) == {};
    }
  }
}

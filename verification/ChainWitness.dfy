/**
 The other half of `ChainLeaks`: from every state that is answered for, a step that breaks one of the four
 conditions has a careful continuation to an idle controller with something still up. The same goes for a boot
 that finds something up which nobody answers for. Runs from a boot show that each of these can happen.
 */
module ChainWitness {
  import opened Base
  import opened ChainOps
  import opened ChainMachine
  import opened ChainSafety
  import opened ChainStop
  import opened ChainLeaks

  const Fine := Outcome(true, false)
  const Bad := Outcome(false, true)       // fails and changes nothing
  const Leave := Outcome(true, true)

  predicate Idle(s: State) { s.api.Ready? && StatusOf(s.ctl) == StatusIdle }

  predicate Leads(s: State, ls: seq<Label>, t: State) { Exec(s, ls) == Some(t) && CarefulRun(0, s, ls) }

  /** A careful run leads from `s` to `t`. */
  ghost predicate Gets(s: State, t: State) { exists ls: seq<Label> :: Leads(s, ls, t) }

  /** A careful run leads from `s` to an idle controller with `r` still up. */
  ghost predicate CanLeak(s: State, r: Res) { exists t: State :: Gets(s, t) && Idle(t) && r in t.world }

  lemma Here(s: State)
    ensures Gets(s, s)
  {
    assert Leads(s, [], s);
  }

  lemma Then(s0: State, s: State, l: Label) returns (t: State)
    requires Gets(s0, s) && Inv(s) && Step(s, l).Some? && CarefulBut(0, s, l)
    ensures Gets(s0, t) && Inv(t) && t == Step(s, l).value
  {
    var ls: seq<Label> :| Leads(s0, ls, s);
    t := Step(s, l).value;
    StepInv(s, l, t);
    var more := ls + [l];
    assert more[..|more| - 1] == ls;
    assert Leads(s0, more, t);
  }

  // ---------------------------------------------------------------- stretches of a run

  /** The controller is in the hands of worker `a`, which is at `pc`. */
  ghost predicate At(s: State, a: nat, m: Mode, pc: Pc) {
    Inv(s) && s.ctl.cancel == Some(a) && s.ctl.mode == m && a in s.workers && s.workers[a].pc == pc
  }

  /** Nobody owns the controller and no call is in progress. */
  ghost predicate Free(s: State) { Inv(s) && s.api.Ready? && s.ctl.cancel.None? }

  function Gains(ops: seq<Op>): set<Res> { if ops == [] then {} else Adds(ops[0]) + Gains(ops[1..]) }

  lemma GainsKinds(m: Mode)
    ensures Gains(Forward(m)) == Kinds(m)
  {
    assert [StartChain, ProxySet][1..] == [ProxySet];
    var f := Forward(Tun);
    assert f[1..] == [TunCreate, StartChain, RouteAdd, DnsSet];
    assert f[1..][1..] == [StartChain, RouteAdd, DnsSet];
    assert f[1..][1..][1..] == [RouteAdd, DnsSet];
    assert [RouteAdd, DnsSet][1..] == [DnsSet];
  }

  lemma RaisesOne(s0: State, s: State, a: nat, m: Mode, j: nat) returns (t: State)
    requires Gets(s0, s) && At(s, a, m, Up(j)) && j < |Forward(m)|
    ensures Gets(s0, t) && At(t, a, m, Up(j + 1)) && t.ctl == s.ctl && t.world == s.world + Adds(Forward(m)[j])
  {
    t := Then(s0, s, Work(a, Fine));
  }

  /** Every forward operation from `j` on succeeds. */
  lemma Raises(s0: State, s: State, a: nat, m: Mode, j: nat) returns (t: State)
    requires Gets(s0, s) && At(s, a, m, Up(j)) && j <= |Forward(m)|
    ensures Gets(s0, t) && At(t, a, m, Back(true)) && t.ctl == s.ctl
    ensures t.world == s.world + Gains(Forward(m)[j..])
    decreases |Forward(m)| - j
  {
    if j == |Forward(m)| {
      t := Then(s0, s, Work(a, Fine));
    } else {
      var u := RaisesOne(s0, s, a, m, j);
      assert Forward(m)[j..][1..] == Forward(m)[j + 1..];
      t := Raises(s0, u, a, m, j + 1);
    }
  }

  lemma BeginsToRise(s0: State, s: State, a: nat, m: Mode) returns (t: State)
    requires Gets(s0, s) && At(s, a, m, Loads)
    ensures Gets(s0, t) && At(t, a, m, Up(0)) && t.ctl == s.ctl && t.world == s.world
  {
    t := Then(s0, s, Work(a, Fine));
  }

  lemma NotStolen(s0: State, s: State, a: nat, m: Mode) returns (t: State)
    requires Gets(s0, s) && At(s, a, m, Back(true))
    ensures Gets(s0, t) && At(t, a, m, WonReads) && t.ctl == s.ctl && t.world == s.world
  {
    t := Then(s0, s, Work(a, Fine));
  }

  /** A worker that has just been launched gets its chain up and comes to the clean-up check. */
  lemma ComesUp(s0: State, s: State, a: nat, m: Mode) returns (t: State)
    requires Gets(s0, s) && At(s, a, m, Loads)
    ensures Gets(s0, t) && At(t, a, m, WonReads) && t.ctl == s.ctl && t.world == s.world + Kinds(m)
  {
    t := BeginsToRise(s0, s, a, m);
    t := Raises(s0, t, a, m, 0);
    assert Forward(m)[0..] == Forward(m);
    GainsKinds(m);
    t := NotStolen(s0, t, a, m);
  }

  predicate MustClear(c: Ctl) { c.cleanupPending && c.cleanupMode == SysProxy && c.mode != SysProxy }

  /** From the clean-up check to polling when nothing has to be cleared first. */
  lemma SettlesIn(s0: State, s: State, a: nat, m: Mode) returns (t: State)
    requires Gets(s0, s) && At(s, a, m, WonReads) && !MustClear(s.ctl)
    ensures Gets(s0, t) && At(t, a, m, Polling) && t.world == s.world && t.ctl == s.ctl.(cleanupPending := false)
  {
    t := Then(s0, s, Work(a, Fine));
    t := SettlesAndSaves(s0, t, a, m);
  }

  lemma SettlesAndSaves(s0: State, s: State, a: nat, m: Mode) returns (t: State)
    requires Gets(s0, s) && At(s, a, m, WonSettles)
    ensures Gets(s0, t) && At(t, a, m, Polling) && t.world == s.world && t.ctl == s.ctl.(cleanupPending := false)
  {
    t := Then(s0, s, Work(a, Fine));
    t := Then(s0, t, Work(a, Fine));
  }

  /** The same when the proxy should be cleared and cannot be. */
  lemma CannotClear(s0: State, s: State, a: nat, m: Mode) returns (t: State)
    requires Gets(s0, s) && At(s, a, m, WonReads) && MustClear(s.ctl)
    ensures Gets(s0, t) && At(t, a, m, Polling) && t.ctl == s.ctl && t.world == s.world
  {
    t := BeginsToClear(s0, s, a, m);
    t := FailsToClear(s0, t, a, m, ProxyOff);
    assert ProxyOff[1..] == [ProxyIsSet] && [ProxyIsSet][1..] == [];
    t := FailsToClear(s0, t, a, m, [ProxyIsSet]);
    t := GivesUpClearing(s0, t, a, m);
  }

  lemma BeginsToClear(s0: State, s: State, a: nat, m: Mode) returns (t: State)
    requires Gets(s0, s) && At(s, a, m, WonReads) && MustClear(s.ctl)
    ensures Gets(s0, t) && At(t, a, m, WonClears(ProxyOff, false)) && t.ctl == s.ctl && t.world == s.world
  {
    t := Then(s0, s, Work(a, Fine));
  }

  lemma FailsToClear(s0: State, s: State, a: nat, m: Mode, todo: seq<Op>) returns (t: State)
    requires Gets(s0, s) && todo != [] && (todo[0] == ProxyClear || todo[0] == ProxyIsSet)
    requires At(s, a, m, WonClears(todo, false)) || At(s, a, m, WonClears(todo, true))
    ensures Gets(s0, t) && At(t, a, m, WonClears(todo[1..], true)) && t.ctl == s.ctl && t.world == s.world
  {
    t := Then(s0, s, Work(a, Bad));
  }

  lemma GivesUpClearing(s0: State, s: State, a: nat, m: Mode) returns (t: State)
    requires Gets(s0, s) && At(s, a, m, WonClears([], true))
    ensures Gets(s0, t) && At(t, a, m, Polling) && t.ctl == s.ctl && t.world == s.world
  {
    t := Then(s0, s, Work(a, Fine));
    t := Then(s0, t, Work(a, Fine));
  }

  /** The chain dies and the poller blocks traffic. */
  lemma Drops(s0: State, s: State, a: nat, m: Mode) returns (t: State)
    requires Gets(s0, s) && At(s, a, m, Polling)
    ensures Gets(s0, t) && At(t, a, m, DropDecides(true)) && t.ctl == s.ctl && t.world == s.world - {Chain}
  {
    t := Then(s0, s, CoresDie);
    t := NoticesDrop(s0, t, a, m);
  }

  lemma NoticesDrop(s0: State, s: State, a: nat, m: Mode) returns (t: State)
    requires Gets(s0, s) && At(s, a, m, Polling) && Chain !in s.world
    ensures Gets(s0, t) && At(t, a, m, DropDecides(true)) && t.world == s.world && t.ctl == s.ctl
  {
    t := Then(s0, s, Work(a, Fine));
    t := Then(s0, t, Work(a, Fine));
  }

  lemma DropsBlocking(s0: State, s: State, a: nat, m: Mode) returns (t: State)
    requires Gets(s0, s) && At(s, a, m, Polling) && (m == Tun ==> !MustClear(s.ctl))
    ensures Gets(s0, t) && Free(t) && t.world == s.world - {Chain} && t.ctl == Ctl(None, None, m, true, m)
  {
    var u := Drops(s0, s, a, m);
    t := Then(s0, u, Work(a, Fine));
  }

  /** A bring-up that failed and was rolled back lets go of the controller. */
  lemma FailsOut(s0: State, s: State, a: nat, m: Mode) returns (t: State)
    requires Gets(s0, s) && At(s, a, m, Back(false))
    ensures Gets(s0, t) && Free(t) && t.ctl == Released(s.ctl) && t.world == s.world
  {
    t := Then(s0, s, Work(a, Fine));
    t := CancelsItself(s0, t, a, m);
  }

  lemma CancelsItself(s0: State, s: State, a: nat, m: Mode) returns (t: State)
    requires Gets(s0, s) && At(s, a, m, FailCancels)
    ensures Gets(s0, t) && Free(t) && t.ctl == Released(s.ctl) && t.world == s.world
  {
    t := Then(s0, s, Work(a, Fine));
    t := Then(s0, t, Work(a, Fine));
  }

  predicate AllLeaving(s: State) { forall a :: a in s.workers ==> s.workers[a].pc.Leaving? }

  /** Goroutines on their way out get there. */
  lemma Drains(s0: State, s: State) returns (t: State)
    requires Gets(s0, s) && Inv(s) && AllLeaving(s)
    ensures Gets(s0, t) && Inv(t) && t == s.(workers := map[])
    decreases |s.workers|
  {
    if s.workers == map[] {
      t := s;
    } else {
      var a :| a in s.workers;
      var u := Then(s0, s, Work(a, Fine));
      assert u.workers == s.workers - {a} && |u.workers.Keys| < |s.workers.Keys| by {
        assert u.workers.Keys == s.workers.Keys - {a};
      }
      t := Drains(s0, u);
    }
  }

  // ---------------------------------------------------------------- starting and stopping

  /** An accepted `Start` gets as far as launching its worker. */
  lemma Launches(s: State, l: Label, t: State) returns (u: State)
    requires Inv(s) && Accepted(s, l) && Step(s, l) == Some(t)
    ensures Gets(t, u) && At(u, s.next, l.mode, Loads) && u.world == s.world
    ensures u.ctl == Launched(s.ctl, s.next, l.found.value, l.mode)
  {
    StepInv(s, l, t);
    Here(t);
    if s.ctl.cleanupPending {
      u := Drains(t, t);
      u := Then(t, u, ApiStep(Fine));
    } else {
      u := t;
    }
  }

  lemma Starts(s0: State, s: State, srv: Server, m: Mode) returns (t: State)
    requires Gets(s0, s) && Free(s) && CarefulBut(0, s, CallStart(Some(srv), m))
    ensures Gets(s0, t) && At(t, s.next, m, Loads) && t.world == s.world && t.ctl == Launched(s.ctl, s.next, srv, m)
  {
    t := Then(s0, s, CallStart(Some(srv), m));
    if s.ctl.cleanupPending {
      t := Drains(s0, t);
      t := Then(s0, t, ApiStep(Fine));
    }
  }

  /** From a start to polling, with no proxy to clear on the way. */
  lemma Connects(s0: State, s: State, srv: Server, m: Mode) returns (t: State)
    requires Gets(s0, s) && Free(s) && CarefulBut(0, s, CallStart(Some(srv), m)) && s.ctl.cleanupMode != SysProxy
    ensures Gets(s0, t) && At(t, s.next, m, Polling) && t.world == s.world + Kinds(m)
    ensures t.ctl == Launched(s.ctl, s.next, srv, m).(cleanupPending := false)
  {
    t := Starts(s0, s, srv, m);
    t := ComesUp(s0, t, s.next, m);
    t := SettlesIn(s0, t, s.next, m);
  }

  /** Every operation of a `Stop` succeeds; what none of them takes down is still there. */
  lemma {:induction false} TearsAll(s0: State, s: State, job: Job, from: nat, todo: seq<Op>, r: Res) returns (t: State)
    requires Gets(s0, s) && Inv(s) && s.api == StopTears(job, from, todo, false) && TakesOnly(todo)
    requires ProxyIsSet in todo ==> Proxy !in s.world || todo[0] == ProxyClear
    requires r in s.world && r !in Ensured(todo) && (r == Proxy ==> ProxyClear !in todo)
    ensures Gets(s0, t) && Inv(t) && t.api == StopTears(job, from, [], false) && t.ctl == s.ctl && r in t.world
    decreases |todo|
  {
    if todo == [] {
      t := s;
    } else {
      var u := Then(s0, s, ApiStep(Fine));
      t := TearsAll(s0, u, job, from, todo[1..], r);
    }
  }

  lemma PlanKeeps(m: Mode)
    ensures TakesOnly(TeardownPlan(m))
    ensures ProxyIsSet in TeardownPlan(m) ==> TeardownPlan(m)[0] == ProxyClear
    ensures m != SysProxy ==> ProxyClear !in TeardownPlan(m)
  {}

  /** `Stop` has nobody left to wait for, runs its plan without a hitch, and `r` is not covered by it. */
  lemma FinishesStop(s0: State, s: State, r: Res)
    requires Gets(s0, s) && Inv(s) && s.workers == map[] && s.api.StopWaits? && s.ctl.cancel.None?
    requires s.api.job.pending ==> s.api.job.previous != SysProxy || s.api.job.mode == SysProxy
    requires var m := s.api.job.mode; r in s.world && r !in Ensured(TeardownPlan(m)) && (r == Proxy ==> m != SysProxy)
    ensures CanLeak(s0, r)
  {
    var m := s.api.job.mode;
    var t := BeginsTearing(s0, s);
    PlanKeeps(m);
    t := TearsAll(s0, t, s.api.job, |s.trace|, TeardownPlan(m), r);
    Returns(s0, t, r);
  }

  lemma BeginsTearing(s0: State, s: State) returns (t: State)
    requires Gets(s0, s) && Inv(s) && s.workers == map[] && s.api.StopWaits? && s.ctl.cancel.None?
    requires s.api.job.pending ==> s.api.job.previous != SysProxy || s.api.job.mode == SysProxy
    ensures Gets(s0, t) && Inv(t) && t.ctl == s.ctl && t.world == s.world
    ensures t.api == StopTears(s.api.job, |s.trace|, TeardownPlan(s.api.job.mode), false)
  {
    t := Then(s0, s, ApiStep(Fine));
  }

  lemma Returns(s0: State, s: State, r: Res)
    requires Gets(s0, s) && Inv(s) && s.api.StopTears? && s.api.todo == [] && !s.api.failed && s.ctl.cancel.None? && r in s.world
    ensures CanLeak(s0, r)
  {
    var t := Then(s0, s, ApiStep(Fine));
    t := Then(s0, t, ApiStep(Fine));
    assert Idle(t);
  }

  /** A clean-up that is owed is carried out, and does not cover `r`. */
  lemma StopsOwed(s0: State, s: State, r: Res)
    requires Gets(s0, s) && Free(s) && s.ctl.cleanupPending && (s.ctl.cleanupMode != SysProxy || s.ctl.mode == SysProxy)
    requires r in s.world && r !in Ensured(TeardownPlan(s.ctl.mode)) && (r == Proxy ==> s.ctl.mode != SysProxy)
    ensures CanLeak(s0, r)
  {
    var t := Then(s0, s, CallStop);
    t := Then(s0, t, ApiStep(Fine));
    t := Drains(s0, t);
    FinishesStop(s0, t, r);
  }

  /** A connected controller that owes nothing is stopped, and its plan does not cover `r`. */
  lemma StopsConnected(s0: State, s: State, a: nat, m: Mode, r: Res)
    requires Gets(s0, s) && At(s, a, m, Polling) && !s.ctl.cleanupPending
    requires r in s.world && r !in Ensured(TeardownPlan(m)) && (r == Proxy ==> m != SysProxy)
    ensures CanLeak(s0, r)
  {
    var t := Then(s0, s, CallStop);
    t := Then(s0, t, ApiStep(Fine));
    t := LastPoll(s0, t, a);
    FinishesStop(s0, t, r);
  }

  lemma LastPoll(s0: State, s: State, a: nat) returns (t: State)
    requires Gets(s0, s) && Inv(s) && s.api.StopWaits? && s.ctl.cancel.None? && s.api.job.victim == Some(a)
    requires a in s.workers && s.workers[a].pc == Polling && a in s.canceled
    ensures Gets(s0, t) && Inv(t) && t == s.(workers := map[])
  {
    t := Then(s0, s, Work(a, Leave));
    t := Drains(s0, t);
  }

  // ---------------------------------------------------------------- condition 1

  lemma UndoesOne(s0: State, s: State, a: nat, m: Mode, todo: seq<Op>, thenProxy: bool) returns (t: State)
    requires Gets(s0, s) && At(s, a, m, Undo(todo, thenProxy)) && todo != [] && Possible(s.world, todo[0], Fine)
    ensures Gets(s0, t) && At(t, a, m, Undo(todo[1..], thenProxy)) && t.ctl == s.ctl
    ensures t.world == Effect(s.world, todo[0], Fine)
  {
    t := Then(s0, s, Work(a, Fine));
  }

  lemma UndoEnds(s0: State, s: State, a: nat, m: Mode, thenProxy: bool) returns (t: State)
    requires Gets(s0, s) && At(s, a, m, Undo([], thenProxy))
    ensures Gets(s0, t) && t.ctl == s.ctl && t.world == s.world
    ensures At(t, a, m, if thenProxy && !s.ctl.cleanupPending then Undo(ProxyOff, false) else Back(false))
  {
    t := Then(s0, s, Work(a, Fine));
  }

  /** What is left of a rollback succeeds, and does not cover `r`. */
  lemma {:induction false} RollsBack(s0: State, s: State, a: nat, m: Mode, todo: seq<Op>, thenProxy: bool, r: Res) returns (t: State)
    requires Gets(s0, s) && At(s, a, m, Undo(todo, thenProxy)) && !s.ctl.cleanupPending
    requires TakesOnly(todo) && ProxyClear !in todo && ProxyIsSet !in todo
    requires r in s.world && r !in Ensured(todo) && (thenProxy ==> r != Proxy)
    ensures Gets(s0, t) && At(t, a, m, Back(false)) && t.ctl == s.ctl && r in t.world
    decreases |todo|
  {
    if todo == [] {
      t := UndoEnds(s0, s, a, m, thenProxy);
      if thenProxy {
        t := ClearsToo(s0, t, a, m, r);
      }
    } else {
      var u := UndoesOne(s0, s, a, m, todo, thenProxy);
      t := RollsBack(s0, u, a, m, todo[1..], thenProxy, r);
    }
  }

  lemma ClearsToo(s0: State, s: State, a: nat, m: Mode, r: Res) returns (t: State)
    requires Gets(s0, s) && At(s, a, m, Undo(ProxyOff, false)) && r in s.world && r != Proxy
    ensures Gets(s0, t) && At(t, a, m, Back(false)) && t.ctl == s.ctl && r in t.world
  {
    t := UndoesOne(s0, s, a, m, ProxyOff, false);
    assert ProxyOff[1..] == [ProxyIsSet];
    t := AsksLast(s0, t, a, m, r);
  }

  lemma AsksLast(s0: State, s: State, a: nat, m: Mode, r: Res) returns (t: State)
    requires Gets(s0, s) && At(s, a, m, Undo([ProxyIsSet], false)) && Proxy !in s.world && r in s.world
    ensures Gets(s0, t) && At(t, a, m, Back(false)) && t.ctl == s.ctl && r in t.world
  {
    t := UndoesOne(s0, s, a, m, [ProxyIsSet], false);
    assert [ProxyIsSet][1..] == [];
    t := UndoEnds(s0, t, a, m, false);
  }

  /** A rollback operation that fails to take something down leaves it behind. */
  lemma RollbackLeaves(s: State, a: nat, o: Outcome, t: State, r: Res)
    requires Good(s) && Step(s, Work(a, o)) == Some(t) && !Condition(1, s, Work(a, o))
    requires r in s.world && r in Ensures(s.workers[a].pc.todo[0])
    ensures CanLeak(t, r)
  {
    var w := s.workers[a];
    var todo := w.pc.todo;
    StepInv(s, Work(a, o), t);
    assert Sensible(s, w);
    Here(t);
    assert At(t, a, s.ctl.mode, Undo(todo[1..], w.pc.thenProxy));
    var u := RollsBack(t, t, a, s.ctl.mode, todo[1..], w.pc.thenProxy, r);
    u := FailsOut(t, u, a, s.ctl.mode);
    assert Idle(u);
  }

  // ---------------------------------------------------------------- conditions 2 and 3

  /** A start in an unknown mode sets a proxy that nothing clears. */
  lemma UnknownLeaves(s: State, l: Label, t: State)
    requires Good(s) && Step(s, l) == Some(t) && !Condition(2, s, l)
    ensures CanLeak(t, Proxy)
  {
    var a := s.next;
    var u := Launches(s, l, t);
    u := ComesUp(t, u, a, Other);
    if MustClear(u.ctl) {
      u := CannotClear(t, u, a, Other);
    } else {
      u := SettlesIn(t, u, a, Other);
    }
    u := DropsBlocking(t, u, a, Other);
    TeardownCovers(Other);
    StopsOwed(t, u, Proxy);
  }

  /** A system-proxy start over a TUN clean-up forgets what is left of the TUN session. */
  lemma SwitchForgetsTun(s: State, l: Label, t: State, r: Res)
    requires Good(s) && Step(s, l) == Some(t) && Accepted(s, l) && l.mode == SysProxy
    requires r in s.world && r in Kinds(Tun) - {Chain}
    ensures CanLeak(t, r)
  {
    var a := s.next;
    var u := Launches(s, l, t);
    u := ComesUp(t, u, a, SysProxy);
    u := SettlesIn(t, u, a, SysProxy);
    TeardownCovers(SysProxy);
    StopsConnected(t, u, a, SysProxy, r);
  }

  /** It also leaves a record that does not mention the proxy, so that a half-written one is forgotten. */
  lemma SwitchForgetsProxy(s: State, l: Label, t: State)
    requires Good(s) && Step(s, l) == Some(t) && Accepted(s, l) && l.mode == SysProxy
    requires s.ctl.cleanupPending && s.ctl.cleanupMode != SysProxy
    ensures CanLeak(t, Proxy)
  {
    var a := s.next;
    var u := Launches(s, l, t);
    u := HalfWrites(t, u, a);
    TunForgetsProxy(t, u);
  }

  lemma TunForgetsProxy(s0: State, s: State)
    requires Gets(s0, s) && Free(s) && s.ctl.cleanupMode != SysProxy && Proxy in s.world
    ensures CanLeak(s0, Proxy)
  {
    var u := Connects(s0, s, 0, Tun);
    TeardownCovers(Tun);
    StopsConnected(s0, u, s.next, Tun, Proxy);
  }

  /** The proxy is half-written, and its clean-up is left to the one that is owed anyway. */
  lemma HalfWrites(s0: State, s: State, a: nat) returns (t: State)
    requires Gets(s0, s) && At(s, a, SysProxy, Loads) && s.ctl.cleanupPending
    ensures Gets(s0, t) && Free(t) && t.ctl == Released(s.ctl) && Proxy in t.world
  {
    t := BeginsToRise(s0, s, a, SysProxy);
    t := RaisesOne(s0, t, a, SysProxy, 0);
    t := Then(s0, t, Work(a, Bad));
    assert At(t, a, SysProxy, Undo([StopChain], true)) && Proxy in t.world;
    t := LeavesProxy(s0, t, a);
    t := FailsOut(s0, t, a, SysProxy);
  }

  lemma LeavesProxy(s0: State, s: State, a: nat) returns (t: State)
    requires Gets(s0, s) && At(s, a, SysProxy, Undo([StopChain], true)) && s.ctl.cleanupPending && Proxy in s.world
    ensures Gets(s0, t) && At(t, a, SysProxy, Back(false)) && t.ctl == s.ctl && Proxy in t.world
  {
    t := UndoesOne(s0, s, a, SysProxy, [StopChain], true);
    assert [StopChain][1..] == [];
    t := UndoEnds(s0, t, a, SysProxy, true);
  }

  lemma SwitchLeaves(s: State, l: Label, t: State) returns (r: Res)
    requires Good(s) && Step(s, l) == Some(t) && !Condition(3, s, l)
    ensures CanLeak(t, r)
  {
    if s.ctl.cleanupMode != SysProxy {
      r := Proxy;
      SwitchForgetsProxy(s, l, t);
    } else {
      r :| r in s.world && r in Kinds(Tun) - {Chain};
      SwitchForgetsTun(s, l, t, r);
    }
  }

  // ---------------------------------------------------------------- condition 4

  /** Every operation of a `Stop` fails and changes nothing. */
  lemma {:induction false} TearsNothing(s0: State, s: State, job: Job, from: nat, todo: seq<Op>, failed: bool) returns (t: State)
    requires Gets(s0, s) && Inv(s) && s.api == StopTears(job, from, todo, failed) && TakesOnly(todo)
    ensures Gets(s0, t) && Inv(t) && t.api == StopTears(job, from, [], failed || todo != []) && t.ctl == s.ctl && t.world == s.world
    decreases |todo|
  {
    if todo == [] {
      t := s;
    } else {
      var u := Then(s0, s, ApiStep(Bad));
      t := TearsNothing(s0, u, job, from, todo[1..], true);
    }
  }

  /** A `Stop` that was waiting for the poller fails too, and keeps the record the poller wrote. */
  lemma StopsInVain(s0: State, s: State)
    requires Gets(s0, s) && Inv(s) && s.api.StopWaits? && AllLeaving(s) && s.ctl.cancel.None? && s.api.job.pending
    requires s.ctl.mode == Tun && s.ctl.cleanupMode == Tun && Proxy in s.world
    ensures CanLeak(s0, Proxy)
  {
    var t := Drains(s0, s);
    t := Then(s0, t, ApiStep(Fine));
    PlansAddNothing(s.api.job, Tun);
    t := TearsNothing(s0, t, s.api.job, |s.trace|, t.api.todo, false);
    GivesUpStopping(s0, t);
  }

  lemma GivesUpStopping(s0: State, s: State)
    requires Gets(s0, s) && Inv(s) && s.api.StopTears? && s.api.todo == [] && s.api.failed && s.api.job.pending
    requires s.ctl.cancel.None? && s.ctl.mode == Tun && s.ctl.cleanupMode == Tun && Proxy in s.world
    ensures CanLeak(s0, Proxy)
  {
    var t := Then(s0, s, ApiStep(Fine));
    TeardownCovers(Tun);
    StopsOwed(s0, t, Proxy);
  }

  lemma Recorded(s: State, a: nat, o: Outcome, t: State)
    requires Inv(s) && Step(s, Work(a, o)) == Some(t) && Records(s, a) && s.ctl.mode == Tun
    ensures t.ctl == s.ctl.(cancel := None, current := t.ctl.current, cleanupPending := true, cleanupMode := Tun)
    ensures t.world == s.world && t.api == s.api && AllLeaving(t) && (s.api.Ready? || Draining(s.api))
  {}

  /** A TUN clean-up recorded over that of a proxy that is still set: nothing clears it any more. */
  lemma RecordLeaves(s: State, a: nat, o: Outcome, t: State)
    requires Good(s) && Step(s, Work(a, o)) == Some(t) && !Condition(4, s, Work(a, o))
    ensures CanLeak(t, Proxy)
  {
    StepInv(s, Work(a, o), t);
    Recorded(s, a, o, t);
    assert Draining(s.api) ==> s.api.job.pending;
    RecordedLeaves(t);
  }

  lemma RecordedLeaves(t: State)
    requires Inv(t) && t.ctl.cancel.None? && t.ctl.cleanupPending && t.ctl.mode == Tun && t.ctl.cleanupMode == Tun
    requires Proxy in t.world && AllLeaving(t) && (t.api.Ready? || (Draining(t.api) && t.api.job.pending))
    ensures CanLeak(t, Proxy)
  {
    Here(t);
    if t.api.Ready? {
      TeardownCovers(Tun);
      StopsOwed(t, t, Proxy);
    } else if t.api.StopCancels? {
      var u := Then(t, t, ApiStep(Fine));
      StopsInVain(t, u);
    } else {
      StopsInVain(t, t);
    }
  }

  // ---------------------------------------------------------------- exactly the four conditions

  lemma GetsGood(s: State, t: State)
    requires Good(s) && Gets(s, t)
    ensures Good(t)
  {
    var ls: seq<Label> :| Leads(s, ls, t);
    RunGood(s, ls, t);
  }

  /** From any state that is answered for, a step keeps every careful continuation clean if and only if it keeps
      the four conditions. */
  lemma ConditionsAreExact(s: State, l: Label, t: State)
    requires Good(s) && Step(s, l) == Some(t)
    ensures CarefulBut(0, s, l) == (forall r: Res :: !CanLeak(t, r))
  {
    if CarefulBut(0, s, l) {
      StepGood(s, l, t);
      forall r: Res, u: State | Gets(t, u) && Idle(u) ensures r !in u.world {
        GetsGood(t, u);
      }
    } else {
      var r := CarelessLeaves(s, l, t);
    }
  }

  lemma CarelessLeaves(s: State, l: Label, t: State) returns (r: Res)
    requires Good(s) && Step(s, l) == Some(t) && !CarefulBut(0, s, l)
    ensures CanLeak(t, r)
  {
    r := Proxy;
    if !Condition(1, s, l) {
      r :| r in s.world && r in Ensures(s.workers[l.a].pc.todo[0]);
      RollbackLeaves(s, l.a, l.o, t, r);
    } else if !Condition(2, s, l) {
      UnknownLeaves(s, l, t);
    } else if !Condition(3, s, l) {
      r := SwitchLeaves(s, l, t);
    } else {
      RecordLeaves(s, l.a, l.o, t);
    }
  }

  // ---------------------------------------------------------------- boot

  /** What the record and the helper's answer account for when the controller boots: the mode of an adopted chain or
      of a clean-up that is owed, and otherwise nothing. */
  function Accounted(record: Option<(Server, Mode)>, found: bool, reply: Reply): set<Res> {
    if record.Some? && reply.Reply? && (reply.cleanupPending || (found && reply.running)) then Answerable(record.value.1) else {}
  }

  lemma BootCovers(record: Option<(Server, Mode)>, found: bool, reply: Reply, proxy: Outcome, w: World)
    ensures var s := Boot(record, found, reply, proxy, w); Covered(s) == (s.world <= Accounted(record, found, reply))
  {}

  lemma BootGood(s: State)
    requires Booted(s) && Covered(s)
    ensures Good(s)
  {
    BootInv(s);
  }

  lemma BootLeaves(s: State, r: Res)
    requires Booted(s) && r in s.world && r !in Debt(s.ctl) + OwnerHolds(s)
    ensures CanLeak(s, r)
  {
    BootInv(s);
    Here(s);
    TeardownCovers(s.ctl.mode);
    if s.ctl.cancel.Some? {
      assert At(s, 0, s.ctl.mode, Polling);
      StopsConnected(s, s, 0, s.ctl.mode, r);
    } else if s.ctl.cleanupPending {
      StopsOwed(s, s, r);
    } else {
      assert Idle(s);
    }
  }

  /** Whatever was recorded and answered, and whatever the host is found with: the controller boots into a state that
      stays free of leaks, as long as the four conditions are kept, if and only if all that is up is accounted for. */
  lemma BootIsExact(record: Option<(Server, Mode)>, found: bool, reply: Reply, proxy: Outcome, w: World)
    ensures var s := Boot(record, found, reply, proxy, w);
            (forall r: Res :: !CanLeak(s, r)) == (s.world <= Accounted(record, found, reply))
  {
    var s := Boot(record, found, reply, proxy, w);
    assert Booted(s);
    BootCovers(record, found, reply, proxy, w);
    if Covered(s) {
      BootGood(s);
      forall r: Res, u: State | Gets(s, u) && Idle(u) ensures r !in u.world {
        GetsGood(s, u);
      }
    } else {
      var r :| r in s.world && r !in Debt(s.ctl) + OwnerHolds(s);
      BootLeaves(s, r);
    }
  }

  /** After a crash in system-proxy mode the clear of the proxy may silently fail: its error is dropped, the status
      reads idle and nothing is owed. */
  lemma DroppedClearLeaves(srv: Server)
    ensures var s := Boot(Some((srv, SysProxy)), true, Reply(false, false), Leave, {Proxy}); Idle(s) && CanLeak(s, Proxy)
  {
    var s := Boot(Some((srv, SysProxy)), true, Reply(false, false), Leave, {Proxy});
    Here(s);
    assert Idle(s);
  }

  /** What a TUN session left is not looked for when the helper does not answer. */
  lemma SilentHelperLeaves(srv: Server, proxy: Outcome)
    ensures var s := Boot(Some((srv, Tun)), true, NoReply, proxy, {TunDev}); Idle(s) && CanLeak(s, TunDev)
  {
    var s := Boot(Some((srv, Tun)), true, NoReply, proxy, {TunDev});
    Here(s);
    assert Idle(s);
  }

  /** A chain that was recorded in an unknown mode is adopted, but its proxy is never cleared. */
  lemma AdoptedUnknownLeaves(srv: Server, proxy: Outcome, w: World)
    requires Proxy in w
    ensures CanLeak(Boot(Some((srv, Other)), true, Reply(true, false), proxy, w), Proxy)
  {
    var s := Boot(Some((srv, Other)), true, Reply(true, false), proxy, w);
    assert Booted(s);
    BootLeaves(s, Proxy);
  }

  // ---------------------------------------------------------------- each of them can be broken

  const Fresh: State := State(Ctl(None, None, Tun, false, Tun), {}, 0, map[], Ready, {}, None, [])

  lemma FreshIsGood()
    ensures Good(Fresh) && Booted(Fresh) && Gets(Fresh, Fresh)
  {
    assert Fresh == Boot(None, false, NoReply, Fine, {});
    Here(Fresh);
  }

  /** A careful run from a fresh boot comes to a step that breaks condition `k` and no other, after which `r` can
      be left up behind an idle controller. */
  ghost predicate Leaks(k: nat, r: Res) {
    exists s: State, l: Label, t: State ::
      Gets(Fresh, s) && Step(s, l) == Some(t) && CarefulBut(k, s, l) && !Condition(k, s, l) && CanLeak(t, r)
  }

  /** Condition 1: the TUN device is not created, and the rollback cannot restore the routes either. */
  lemma RollbackFailureLeaks()
    ensures Leaks(1, Snapshot)
  {
    FreshIsGood();
    var s := Starts(Fresh, Fresh, 7, Tun);
    s := BeginsToRise(Fresh, s, 0, Tun);
    s := FailsToRise(s);
    GetsGood(Fresh, s);
    BadRollback(s);
  }

  lemma FailsToRise(s: State) returns (t: State)
    requires Gets(Fresh, s) && At(s, 0, Tun, Up(0)) && !s.ctl.cleanupPending
    ensures Gets(Fresh, t) && At(t, 0, Tun, Undo([RouteRestore], false)) && !t.ctl.cleanupPending && Snapshot in t.world
  {
    t := RaisesOne(Fresh, s, 0, Tun, 0);
    t := Then(Fresh, t, Work(0, Bad));
  }

  lemma BadRollback(s: State)
    requires Gets(Fresh, s) && Good(s) && At(s, 0, Tun, Undo([RouteRestore], false)) && !s.ctl.cleanupPending && Snapshot in s.world
    ensures Leaks(1, Snapshot)
  {
    var l := Work(0, Bad);
    var t := Step(s, l).value;
    RollbackLeaves(s, 0, Bad, t, Snapshot);
    assert CarefulBut(1, s, l) && !Condition(1, s, l);
  }

  /** Condition 2: an unknown mode sets the OS proxy, and `Stop` never clears it. */
  lemma UnknownModeLeaks()
    ensures Leaks(2, Proxy)
  {
    FreshIsGood();
    var l := CallStart(Some(7), Other);
    UnknownLeaves(Fresh, l, Step(Fresh, l).value);
  }

  /** Condition 3: a blocked TUN session is followed by a system-proxy one, which forgets the TUN debt. */
  lemma ModeSwitchLeaks()
    ensures Leaks(3, TunDev)
  {
    FreshIsGood();
    var s := Connects(Fresh, Fresh, 7, Tun);
    s := DropsBlocking(Fresh, s, 0, Tun);
    GetsGood(Fresh, s);
    Switches(s);
  }

  lemma Switches(s: State)
    requires Gets(Fresh, s) && Good(s) && Free(s) && s.ctl == Ctl(None, None, Tun, true, Tun) && TunDev in s.world
    ensures Leaks(3, TunDev)
  {
    var l := CallStart(Some(8), SysProxy);
    var t := Step(s, l).value;
    SwitchForgetsTun(s, l, t, TunDev);
    assert CarefulBut(3, s, l) && !Condition(3, s, l);
  }

  /** Condition 4: a TUN session starts while a proxy clean-up is owed and cannot clear it; its own drop then
      overwrites the record of that debt. */
  lemma OverwrittenDebtLeaks()
    ensures Leaks(4, Proxy)
  {
    FreshIsGood();
    var s := Connects(Fresh, Fresh, 7, SysProxy);
    s := DropsBlocking(Fresh, s, 0, SysProxy);
    TunOverProxyDebt(s);
  }

  lemma TunOverProxyDebt(s: State)
    requires Gets(Fresh, s) && Free(s) && s.ctl == Ctl(None, None, SysProxy, true, SysProxy) && Proxy in s.world
    ensures Leaks(4, Proxy)
  {
    var t := ConnectsUncleared(s);
    t := Drops(Fresh, t, s.next, Tun);
    GetsGood(Fresh, t);
    Overwrites(t, s.next);
  }

  lemma ConnectsUncleared(s: State) returns (t: State)
    requires Gets(Fresh, s) && Free(s) && s.ctl == Ctl(None, None, SysProxy, true, SysProxy) && Proxy in s.world
    ensures Gets(Fresh, t) && At(t, s.next, Tun, Polling) && MustClear(t.ctl) && Proxy in t.world
  {
    t := Starts(Fresh, s, 8, Tun);
    t := ComesUp(Fresh, t, s.next, Tun);
    t := CannotClear(Fresh, t, s.next, Tun);
  }

  lemma Overwrites(s: State, a: nat)
    requires Gets(Fresh, s) && Good(s) && At(s, a, Tun, DropDecides(true)) && MustClear(s.ctl) && Proxy in s.world
    ensures Leaks(4, Proxy)
  {
    var l := Work(a, Fine);
    var t := Step(s, l).value;
    RecordLeaves(s, a, Fine, t);
    assert CarefulBut(4, s, l) && !Condition(4, s, l);
  }
}

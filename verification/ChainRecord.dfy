/**
 What the connection controller reports and records: which server and mode an attempt is for, the session record
 that outlives a crash, and what the next boot makes of it.
 */
module ChainRecord {
  import opened Base
  import opened ChainOps
  import opened ChainMachine
  import opened ChainSafety
  import opened ChainStop
  import opened ChainLeaks
  import opened ChainWitness

  // ---------------------------------------------------------------- what was asked for

  /** An accepted `Start` launches a worker for the server that was found and the mode that was asked for, at once or
      when the goroutines it has to wait for are gone, and reports both. */
  lemma StartsWhatWasAsked(s: State, l: Label, t: State)
    requires Accepted(s, l) && Step(s, l) == Some(t)
    ensures if s.ctl.cleanupPending then t == s.(api := StartWaits(l.found.value, l.mode)) else Launches(s, t, l.found.value, l.mode)
  {}

  lemma WaitingStartLaunches(s: State, o: Outcome, t: State)
    requires s.api.StartWaits? && Step(s, ApiStep(o)) == Some(t)
    ensures Launches(s, t, s.api.server, s.api.mode)
  {}

  predicate Launches(s: State, t: State, srv: Server, m: Mode) {
    && t.workers == s.workers[s.next := Worker(srv, m, Loads)] && t.next == s.next + 1 && t.api.Ready?
    && t.ctl.cancel == Some(s.next) && t.ctl.current == Some(srv) && t.ctl.mode == m
    && t.ctl.cleanupPending == s.ctl.cleanupPending && t.ctl.cleanupMode == s.ctl.cleanupMode && t.world == s.world
  }

  /** A worker stays with the server and the mode it was launched for. */
  lemma WorkerStaysWithItsServer(s: State, l: Label, t: State, a: nat)
    requires Inv(s) && Step(s, l) == Some(t) && a in s.workers && a in t.workers
    ensures t.workers[a].server == s.workers[a].server && t.workers[a].mode == s.workers[a].mode
  {
    if l.Work? {
      WorkSame(s, l.a, l.o, t, a);
    }
  }

  lemma WorkSame(s: State, b: nat, o: Outcome, t: State, a: nat)
    requires WorkStep(s, b, o) == Some(t) && a in s.workers && a in t.workers
    ensures t.workers[a].server == s.workers[a].server && t.workers[a].mode == s.workers[a].mode
  {}

  /** The server reported is that of the attempt in charge, until its chain is found gone. */
  ghost predicate CurrentInv(s: State) {
    s.ctl.cancel.Some? && s.ctl.cancel.value in s.workers && !s.workers[s.ctl.cancel.value].pc.DropTears? ==>
      s.ctl.current == Some(s.workers[s.ctl.cancel.value].server)
  }

  /** A worker's step leaves the server reported alone, lets go of the controller, or begins to tear a drop down. */
  lemma WorkFields(s: State, a: nat, o: Outcome, t: State)
    requires WorkStep(s, a, o) == Some(t)
    ensures t.ctl.cancel.None? || t.ctl.current == s.ctl.current || (a in t.workers && t.workers[a].pc.DropTears?)
    ensures t.ctl.cancel.None? || t.ctl.cancel == s.ctl.cancel
    ensures s.workers[a].pc.DropTears? && t.ctl.cancel.Some? ==> a in t.workers && t.workers[a].pc.DropTears?
  {}

  lemma WorkCurrent(s: State, a: nat, o: Outcome, t: State)
    requires Inv(s) && CurrentInv(s) && WorkStep(s, a, o) == Some(t)
    ensures CurrentInv(t)
  {
    WorkFields(s, a, o, t);
    WorkTouches(s, a, o, t);
    WorkShape(s, a, o, t);
    if t.ctl.cancel.Some? && t.ctl.cancel.value in t.workers {
      WorkSame(s, a, o, t, t.ctl.cancel.value);
    }
  }

  lemma StepCurrent(s: State, l: Label, t: State)
    requires Inv(s) && CurrentInv(s) && Step(s, l) == Some(t)
    ensures CurrentInv(t)
  {
    if l.Work? {
      WorkCurrent(s, l.a, l.o, t);
    }
  }

  lemma {:induction false} RunCurrent(s: State, ls: seq<Label>, t: State)
    requires Inv(s) && CurrentInv(s) && Exec(s, ls) == Some(t)
    ensures Inv(t) && CurrentInv(t)
  {
    if ls != [] {
      var mid := Exec(s, ls[..|ls| - 1]).value;
      RunCurrent(s, ls[..|ls| - 1], mid);
      StepCurrent(mid, ls[|ls| - 1], t);
      StepInv(mid, ls[|ls| - 1], t);
    }
  }

  /** What is reported in every reachable state: connected exactly while an attempt is in charge, with its mode, and with
      its server until its chain is found gone. */
  lemma ReportsTheAttemptInCharge(s: State)
    requires Reachable(s)
    ensures (StatusOf(s.ctl) == StatusConnected) == (exists a :: a in s.workers && Active(s.workers[a].pc) && !Draining(s.api))
    ensures forall a :: a in s.workers && Active(s.workers[a].pc) && !Draining(s.api) ==>
              s.ctl.mode == s.workers[a].mode && (!s.workers[a].pc.DropTears? ==> s.ctl.current == Some(s.workers[a].server))
    ensures StatusOf(s.ctl) == StatusError ==> s.ctl.cleanupPending
  {
    ReachableInv(s);
    var s0: State, ls: seq<Label> :| Booted(s0) && Exec(s0, ls) == Some(s);
    BootInv(s0);
    RunCurrent(s0, ls, s);
    if s.ctl.cancel.Some? {
      assert Active(s.workers[s.ctl.cancel.value].pc);
    }
  }

  // ---------------------------------------------------------------- the session record

  /** The record changes in two places only: the attempt that comes up saves its own server and mode, and a `Stop` that
      succeeded removes it. */
  lemma RecordChanges(s: State, l: Label, t: State)
    requires Step(s, l) == Some(t)
    ensures var saves := l.Work? && l.a in s.workers && s.workers[l.a].pc.WonSaves? && l.o.ok;
            var removes := l.ApiStep? && s.api.StopForgets? && l.o.ok;
            && (saves ==> t.session == Some((s.workers[l.a].server, s.workers[l.a].mode)))
            && (removes ==> t.session.None?) && (!saves && !removes ==> t.session == s.session)
  {}

  predicate Watching(pc: Pc) { pc.Polling? || pc.Polled? || pc.DropDecides? || pc.DropTears? }

  /** The attempt has come up and its own record stands. */
  predicate Saved(s: State, a: nat) {
    && a in s.workers && Watching(s.workers[a].pc)
    && s.session == Some((s.workers[a].server, s.workers[a].mode))
  }

  lemma SavedStep(s: State, l: Label, t: State, a: nat)
    requires Inv(s) && Saved(s, a) && Step(s, l) == Some(t) && a in t.workers && Active(t.workers[a].pc)
    ensures Saved(t, a)
  {
    RecordChanges(s, l, t);
    WorkerStaysWithItsServer(s, l, t, a);
    if l.Work? && l.a != a {
      WorkShape(s, l.a, l.o, t);
    }
  }

  lemma {:induction false} SavedStays(s: State, ls: seq<Label>, t: State, a: nat)
    requires Inv(s) && Saved(s, a) && Exec(s, ls) == Some(t) && a in t.workers && Active(t.workers[a].pc)
    ensures Inv(t) && Saved(t, a)
    ensures t.workers[a].server == s.workers[a].server && t.workers[a].mode == s.workers[a].mode
  {
    if ls != [] {
      var mid := Exec(s, ls[..|ls| - 1]).value;
      RunInv(s, ls[..|ls| - 1], mid);
      StillThere(s, ls[..|ls| - 1], mid, a, ls[|ls| - 1], t);
      SavedStays(s, ls[..|ls| - 1], mid, a);
      SavedStep(mid, ls[|ls| - 1], t, a);
      WorkerStaysWithItsServer(mid, ls[|ls| - 1], t, a);
      StepInv(mid, ls[|ls| - 1], t);
    }
  }

  lemma {:induction false} NextGrows(s: State, ls: seq<Label>, t: State)
    requires Exec(s, ls) == Some(t)
    ensures s.next <= t.next
  {
    if ls != [] {
      var mid := Exec(s, ls[..|ls| - 1]).value;
      NextGrows(s, ls[..|ls| - 1], mid);
      if ls[|ls| - 1].Work? {
        WorkShape(mid, ls[|ls| - 1].a, ls[|ls| - 1].o, t);
      }
    }
  }

  /** An active worker was there and active before the step. */
  lemma StillThere(s: State, init: seq<Label>, mid: State, a: nat, l: Label, t: State)
    requires a < s.next && Exec(s, init) == Some(mid) && Inv(mid) && Step(mid, l) == Some(t) && a in t.workers && Active(t.workers[a].pc)
    requires Inv(s) && a in s.workers
    ensures a in mid.workers && Active(mid.workers[a].pc)
  {
    NextGrows(s, init, mid);
    if l.Work? {
      WorkShape(mid, l.a, l.o, t);
    }
  }

  /** From the moment an attempt has saved its record, and as long as it is in charge or being waited for, the record
      names its server and mode. */
  lemma RecordNamesTheAttempt(s: State, a: nat, o: Outcome, t: State, ls: seq<Label>, u: State)
    requires Reachable(s) && a in s.workers && s.workers[a].pc.WonSaves? && o.ok && Step(s, Work(a, o)) == Some(t)
    requires Exec(t, ls) == Some(u) && a in u.workers && Active(u.workers[a].pc)
    ensures u.session == Some((s.workers[a].server, s.workers[a].mode)) && Saved(u, a)
  {
    ReachableInv(s);
    StepInv(s, Work(a, o), t);
    RecordChanges(s, Work(a, o), t);
    WorkerStaysWithItsServer(s, Work(a, o), t, a);
    SavedStays(t, ls, u, a);
  }

  // ---------------------------------------------------------------- a crash and the next boot

  /** If the program dies with an attempt recorded and the helper then answers that its chain runs or is owed a clean-up,
      the next boot answers for everything that attempt has up; and if nothing else was owed, for everything there is. */
  lemma RebootAnswersForTheAttempt(s: State, a: nat, reply: Reply, proxy: Outcome)
    requires Good(s) && Saved(s, a) && reply.Reply? && (reply.running || reply.cleanupPending)
    ensures ChainLeaks.Holds(s.workers[a]) <= Accounted(s.session, true, reply)
    ensures s.ctl.cancel == Some(a) && !s.ctl.cleanupPending ==> Good(Boot(s.session, true, reply, proxy, s.world))
  {
    HoldsWithinKinds(s, a);
    if s.ctl.cancel == Some(a) && !s.ctl.cleanupPending {
      BootCovers(s.session, true, reply, proxy, s.world);
      BootGood(Boot(s.session, true, reply, proxy, s.world));
    }
  }

  /** What a boot does: it clears the proxy of a system-proxy session whose chain is gone, and touches nothing else. What it
      reports: an adopted chain as connected, an owed clean-up as an error, and otherwise idle, with the
      recorded server and mode for the user to reconnect to if the server still exists. */
  lemma BootReports(srv: Server, m: Mode, found: bool, reply: Reply, proxy: Outcome, w: World)
    ensures var s := Boot(Some((srv, m)), found, reply, proxy, w);
            if reply.Reply? && reply.cleanupPending then StatusOf(s.ctl) == StatusError && s.ctl.mode == m && s.ctl.cleanupMode == m
            else if found && reply.Reply? && reply.running
            then StatusOf(s.ctl) == StatusConnected && s.ctl.current == Some(srv) && s.ctl.mode == m && Saved(s, 0)
            else StatusOf(s.ctl) == StatusIdle && (found ==> s.ctl.current == Some(srv) && s.ctl.mode == m && s.session == Some((srv, m)))
                 && (!found ==> s.session.None?)
    ensures Boot(Some((srv, m)), found, reply, proxy, w).world ==
            if m == SysProxy && found && reply == Reply(false, false) && !proxy.odd then w - {Proxy} else w
  {}

  // ---------------------------------------------------------------- drops

  /** A poll of an attempt that nobody cancelled takes the chain for dropped exactly when the helper answers and the chain
      was gone when it was asked; otherwise polling goes on. */
  lemma DropIsNoticed(s: State, a: nat, asked: Outcome, decided: Outcome, t: State, u: State)
    requires a in s.workers && s.workers[a].pc.Polling? && a !in s.canceled
    requires Step(s, Work(a, asked)) == Some(t) && Step(t, Work(a, decided)) == Some(u)
    ensures u.workers == s.workers[a := s.workers[a].(pc :=
              if asked.ok && Chain !in s.world then DropDecides(decided.ok) else Polling)]
    ensures u.ctl == s.ctl && u.world == s.world && u.trace == s.trace
  {}

  /** With the kill switch off a drop is torn down: by the time the poller is done with it, whatever else happened, the
      trace shows its full teardown plan from where it began. */
  ghost predicate TornOrTearing(s: State, a: nat, from: nat, m: Mode) {
    if a in s.workers && s.workers[a].pc.DropTears?
    then s.workers[a].pc.from == from && s.workers[a].mode == m
    else exists failed :: Ran(s.trace, from, Attempt(a), TeardownPlan(m), failed)
  }

  lemma RanStays(tr: seq<Event>, more: seq<Event>, from: nat, who: Actor, ops: seq<Op>, failed: bool)
    requires Ran(tr, from, who, ops, failed) && tr <= more
    ensures Ran(more, from, who, ops, failed)
  {
    assert forall j :: from <= j < from + |ops| ==> more[j] == tr[j];
  }

  lemma TornStep(s: State, l: Label, t: State, a: nat, from: nat, m: Mode)
    requires Inv(s) && TraceInv(s) && a < s.next && TornOrTearing(s, a, from, m) && Step(s, l) == Some(t)
    requires a in s.workers ==> s.workers[a].pc.DropTears? || s.workers[a].pc.Leaving?
    ensures TornOrTearing(t, a, from, m) && a < t.next
    ensures a in t.workers ==> t.workers[a].pc.DropTears? || t.workers[a].pc.Leaving?
  {
    if l.Work? {
      WorkShape(s, l.a, l.o, t);
    }
    if l.Work? && l.a == a && s.workers[a].pc.DropTears? {
      TearingStep(s, a, l.o, t, from, m);
    } else if !(a in s.workers && s.workers[a].pc.DropTears?) {
      var failed :| Ran(s.trace, from, Attempt(a), TeardownPlan(m), failed);
      RanStays(s.trace, t.trace, from, Attempt(a), TeardownPlan(m), failed);
    }
  }

  lemma TearingStep(s: State, a: nat, o: Outcome, t: State, from: nat, m: Mode)
    requires TraceInv(s) && TornOrTearing(s, a, from, m) && WorkStep(s, a, o) == Some(t) && s.workers[a].pc.DropTears?
    ensures TornOrTearing(t, a, from, m) && a in t.workers && (t.workers[a].pc.DropTears? || t.workers[a].pc.Leaving?)
  {
    if s.workers[a].pc.todo == [] {
      var plan := TeardownPlan(m);
      assert plan[..|plan|] == plan;
      assert Ran(t.trace, from, Attempt(a), plan, s.workers[a].pc.failed);
    }
  }

  lemma {:induction false} TornRun(s: State, ls: seq<Label>, t: State, a: nat, from: nat, m: Mode)
    requires Inv(s) && TraceInv(s) && a < s.next && TornOrTearing(s, a, from, m) && Exec(s, ls) == Some(t)
    requires a in s.workers ==> s.workers[a].pc.DropTears? || s.workers[a].pc.Leaving?
    ensures TornOrTearing(t, a, from, m) && a < t.next
    ensures a in t.workers ==> t.workers[a].pc.DropTears? || t.workers[a].pc.Leaving?
  {
    if ls != [] {
      var mid := Exec(s, ls[..|ls| - 1]).value;
      RunTrace(s, ls[..|ls| - 1], mid);
      TornRun(s, ls[..|ls| - 1], mid, a, from, m);
      TornStep(mid, ls[|ls| - 1], t, a, from, m);
    }
  }

  lemma DropIsTornDown(s: State, a: nat, o: Outcome, t: State, ls: seq<Label>, u: State)
    requires Reachable(s) && a in s.workers && s.workers[a].pc == DropDecides(false) && a !in s.canceled && s.ctl.cancel.Some?
    requires Step(s, Work(a, o)) == Some(t) && Exec(t, ls) == Some(u)
    requires a in u.workers ==> u.workers[a].pc.Leaving?
    ensures exists failed :: Ran(u.trace, |s.trace|, Attempt(a), TeardownPlan(s.workers[a].mode), failed)
  {
    ReachableTrace(s);
    StepInv(s, Work(a, o), t);
    StepTrace(s, Work(a, o), t);
    TornRun(t, ls, u, a, |s.trace|, s.workers[a].mode);
  }
}

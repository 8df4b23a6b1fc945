/** What `Stop` guarantees when it returns nil, and what the poller does on an unsolicited drop. */
module ChainStop {
  import opened Base
  import opened ChainOps
  import opened ChainMachine
  import opened ChainSafety

  /** From `from` on, the trace shows exactly `ops`, issued by `who`; `failed` says whether any failed. */
  ghost predicate Ran(tr: seq<Event>, from: nat, who: Actor, ops: seq<Op>, failed: bool) {
    && from + |ops| <= |tr|
    && (forall j :: from <= j < from + |ops| ==> tr[j].Issued? && tr[j].who == who && tr[j].op == ops[j - from])
    && (failed <==> exists j :: from <= j < from + |ops| && tr[j].Issued? && !tr[j].ok)
  }

  function PlanOf(job: Job): seq<Op> { StopPlan(job.mode, job.pending, job.previous) }

  /** A teardown that has `todo` left of `plan`: the rest is in the trace, and while nothing has failed,
      everything the finished part vouches for is down. */
  ghost predicate Tearing(s: State, who: Actor, from: nat, plan: seq<Op>, todo: seq<Op>, failed: bool) {
    && |todo| <= |plan| && todo == plan[|plan| - |todo|..]
    && from + |plan| - |todo| == |s.trace|
    && Ran(s.trace, from, who, plan[..|plan| - |todo|], failed)
    && (!failed ==> s.world !! Ensured(plan[..|plan| - |todo|]))
  }

  /** What a recorded successful `Stop` promises about the whole trace. */
  ghost predicate StopKept(s: State, k: nat)
    requires k < |s.trace| && s.trace[k].StopReturned?
  {
    var StopReturned(job, from) := s.trace[k];
    && from + |PlanOf(job)| == k
    && Ran(s.trace, from, Actor.Api, PlanOf(job), false)
    && (job.victim.Some? ==>
          && job.victim.value !in s.workers && job.victim.value < s.next
          && forall j :: from <= j < |s.trace| && s.trace[j].Issued? ==> s.trace[j].who != Attempt(job.victim.value))
  }

  ghost predicate TraceInv(s: State) {
    && (s.api.StopTears? ==> Tearing(s, Actor.Api, s.api.from, PlanOf(s.api.job), s.api.todo, s.api.failed))
    && (s.api.StopForgets? ==>
          !s.ctl.cleanupPending && Tearing(s, Actor.Api, s.api.from, PlanOf(s.api.job), [], false))
    && (forall a :: a in s.workers && s.workers[a].pc.DropTears? ==>
          var w := s.workers[a];
          Tearing(s, Attempt(a), w.pc.from, TeardownPlan(w.mode), w.pc.todo, w.pc.failed))
    && (forall k :: 0 <= k < |s.trace| && s.trace[k].StopReturned? ==> StopKept(s, k))
  }

  /** One more operation of a teardown, whoever runs it. */
  lemma TearsOn(s: State, who: Actor, from: nat, plan: seq<Op>, todo: seq<Op>, failed: bool, o: Outcome, t: State)
    requires Tearing(s, who, from, plan, todo, failed) && todo != [] && Possible(s.world, todo[0], o)
    requires forall i :: 0 <= i < |plan| ==> Adds(plan[i]) == {}
    requires t.world == Effect(s.world, todo[0], o) && t.trace == s.trace + [Issued(who, todo[0], o.ok)]
    ensures Tearing(t, who, from, plan, todo[1..], failed || !o.ok)
  {
    var n := |plan| - |todo|;
    assert todo[0] == plan[n];
    assert todo[1..] == plan[n + 1..];
    EnsuredSnoc(plan, n);
    var ops, more := plan[..n], plan[..n + 1];
    assert forall j :: from <= j < |s.trace| ==> t.trace[j] == s.trace[j];
    assert t.trace[from + n] == Issued(who, todo[0], o.ok);
    if !(failed || !o.ok) {
      assert t.world !! Ensured(ops) by { assert t.world <= s.world; }
    }
    if failed {
      var j :| from <= j < from + |ops| && s.trace[j].Issued? && !s.trace[j].ok;
      assert t.trace[j].Issued? && !t.trace[j].ok;
    }
  }

  /** Records of earlier stops survive any step that adds at most one operation by a live actor. */
  lemma KeptOn(s: State, t: State)
    requires forall k :: 0 <= k < |s.trace| && s.trace[k].StopReturned? ==> StopKept(s, k)
    requires s.trace <= t.trace && |t.trace| <= |s.trace| + 1 && s.next <= t.next
    requires forall a :: a in t.workers ==> a in s.workers || a == s.next
    requires |t.trace| > |s.trace| ==>
               var e := t.trace[|s.trace|]; e.Issued? && e.who.Attempt? ==> e.who.a in s.workers
    ensures forall k :: 0 <= k < |s.trace| && t.trace[k].StopReturned? ==> StopKept(t, k)
  {}

  /** A teardown in progress is undisturbed by a step that leaves the trace alone and adds nothing to the host. */
  lemma TearsStill(s: State, who: Actor, from: nat, plan: seq<Op>, todo: seq<Op>, failed: bool, t: State)
    requires Tearing(s, who, from, plan, todo, failed)
    requires t.trace == s.trace && t.world <= s.world
    ensures Tearing(t, who, from, plan, todo, failed)
  {}

  lemma PlansAddNothing(job: Job, m: Mode)
    ensures forall i :: 0 <= i < |PlanOf(job)| ==> Adds(PlanOf(job)[i]) == {}
    ensures forall i :: 0 <= i < |TeardownPlan(m)| ==> Adds(TeardownPlan(m)[i]) == {}
  {}

  lemma DropsStill(s: State, t: State)
    requires TraceInv(s) && t.trace == s.trace && t.world <= s.world
    requires forall a :: a in t.workers && t.workers[a].pc.DropTears? ==> a in s.workers && t.workers[a] == s.workers[a]
    ensures forall a :: a in t.workers && t.workers[a].pc.DropTears? ==>
          var w := t.workers[a];
          Tearing(t, Attempt(a), w.pc.from, TeardownPlan(w.mode), w.pc.todo, w.pc.failed)
  {}

  lemma StopTearsTrace(s: State, o: Outcome, t: State)
    requires Inv(s) && TraceInv(s) && s.api.StopTears? && ApiContinue(s, o) == Some(t)
    ensures TraceInv(t)
  {
    KeptOn(s, t);
    PlansAddNothing(s.api.job, s.api.job.mode);
    if s.api.todo != [] {
      TearsOn(s, Actor.Api, s.api.from, PlanOf(s.api.job), s.api.todo, s.api.failed, o, t);
    } else if !s.api.failed {
      TearsStill(s, Actor.Api, s.api.from, PlanOf(s.api.job), [], false, t);
    }
  }

  lemma StopForgetsTrace(s: State, o: Outcome, t: State)
    requires Inv(s) && TraceInv(s) && s.api.StopForgets? && ApiContinue(s, o) == Some(t)
    ensures TraceInv(t)
  {
    KeptOn(s, t);
    var k, plan := |s.trace|, PlanOf(s.api.job);
    assert t.trace[k] == StopReturned(s.api.job, s.api.from);
    assert StopKept(t, k) by {
      assert plan[..|plan|] == plan;
    }
  }

  /** Every other step outside the workers leaves the trace as it is. */
  lemma OtherTrace(s: State, l: Label, t: State)
    requires Inv(s) && TraceInv(s) && !l.Work? && Step(s, l) == Some(t)
    requires l.ApiStep? ==> !s.api.StopTears? && !s.api.StopForgets?
    ensures TraceInv(t)
  {
    KeptOn(s, t);
    DropsStill(s, t);
    if s.api.StopTears? {
      TearsStill(s, Actor.Api, s.api.from, PlanOf(s.api.job), s.api.todo, s.api.failed, t);
    } else if s.api.StopForgets? {
      TearsStill(s, Actor.Api, s.api.from, PlanOf(s.api.job), [], false, t);
    }
  }

  /** What any step of worker `a` has in common: it speaks for itself only. */
  ghost predicate Shape(s: State, a: nat, t: State) {
    && a in s.workers && t.api == s.api && t.next == s.next
    && (t.workers == s.workers - {a} || (a in t.workers && t.workers == s.workers[a := t.workers[a]]))
    && s.trace <= t.trace && |t.trace| <= |s.trace| + 1
    && (|t.trace| > |s.trace| ==>
          Active(s.workers[a].pc) && t.trace[|s.trace|].Issued? && t.trace[|s.trace|].who == Attempt(a))
  }

  lemma IssuingShape(s: State, a: nat, o: Outcome, t: State)
    requires WorkStep(s, a, o) == Some(t)
    requires var pc := s.workers[a].pc; pc.Up? || pc.Undo? || pc.WonClears?
    ensures Shape(s, a, t)
  {}

  lemma QuietShape(s: State, a: nat, o: Outcome, t: State)
    requires WorkStep(s, a, o) == Some(t)
    requires var pc := s.workers[a].pc; !(pc.Up? || pc.Undo? || pc.WonClears? || pc.DropTears?)
    ensures Shape(s, a, t)
  {
  }

  lemma DropBegins(s: State, a: nat, o: Outcome, t: State)
    requires WorkStep(s, a, o) == Some(t)
    ensures a in t.workers && t.workers[a].pc.DropTears? && !s.workers[a].pc.DropTears? ==>
              && s.workers[a].pc.DropDecides? && t.trace == s.trace
              && t.workers[a].pc == DropTears(|s.trace|, TeardownPlan(s.ctl.mode), false)
    ensures !Active(s.workers[a].pc) ==> t.trace == s.trace && t.world == s.world
  {
  }

  /** While worker `a` is active no other worker and no `Stop` is tearing down, so only its own teardown matters. */
  lemma OwnTeardownOnly(s: State, a: nat, t: State)
    requires Inv(s) && TraceInv(s) && Shape(s, a, t) && Active(s.workers[a].pc)
    requires a in t.workers && t.workers[a].pc.DropTears? ==>
               var w := t.workers[a]; Tearing(t, Attempt(a), w.pc.from, TeardownPlan(w.mode), w.pc.todo, w.pc.failed)
    ensures TraceInv(t)
  {
    KeptOn(s, t);
  }

  lemma DropTearsTrace(s: State, a: nat, o: Outcome, t: State)
    requires Inv(s) && TraceInv(s) && WorkStep(s, a, o) == Some(t) && s.workers[a].pc.DropTears?
    ensures TraceInv(t)
  {
    var w := s.workers[a];
    if w.pc.todo != [] {
      PlansAddNothing(Job(None, w.mode, false, w.mode), w.mode);
      TearsOn(s, Attempt(a), w.pc.from, TeardownPlan(w.mode), w.pc.todo, w.pc.failed, o, t);
    }
    OwnTeardownOnly(s, a, t);
  }

  lemma WorkTrace(s: State, a: nat, o: Outcome, t: State)
    requires Inv(s) && TraceInv(s) && WorkStep(s, a, o) == Some(t) && !s.workers[a].pc.DropTears?
    ensures TraceInv(t)
  {
    var pc := s.workers[a].pc;
    if pc.Up? || pc.Undo? || pc.WonClears? {
      IssuingShape(s, a, o, t);
    } else {
      QuietShape(s, a, o, t);
    }
    DropBegins(s, a, o, t);
    if Active(s.workers[a].pc) {
      OwnTeardownOnly(s, a, t) by {
        assert TeardownPlan(s.ctl.mode)[..0] == [];
      }
    } else {
      KeptOn(s, t);
      DropsStill(s, t);
    }
  }

  lemma StepTrace(s: State, l: Label, t: State)
    requires Inv(s) && TraceInv(s) && Step(s, l) == Some(t)
    ensures TraceInv(t)
  {
    if l.Work? {
      var pc := s.workers[l.a].pc;
      if pc.DropTears? {
        DropTearsTrace(s, l.a, l.o, t);
      } else {
        WorkTrace(s, l.a, l.o, t);
      }
    } else if l.ApiStep? && s.api.StopTears? {
      StopTearsTrace(s, l.o, t);
    } else if l.ApiStep? && s.api.StopForgets? {
      StopForgetsTrace(s, l.o, t);
    } else {
      OtherTrace(s, l, t);
    }
  }

  lemma {:induction false} RunTrace(s: State, ls: seq<Label>, t: State)
    requires Inv(s) && TraceInv(s) && Exec(s, ls) == Some(t)
    ensures Inv(t) && TraceInv(t)
  {
    if ls != [] {
      var mid := Exec(s, ls[..|ls| - 1]).value;
      RunTrace(s, ls[..|ls| - 1], mid);
      StepInv(mid, ls[|ls| - 1], t);
      StepTrace(mid, ls[|ls| - 1], t);
    }
  }

  lemma BootTrace(s: State)
    requires Booted(s)
    ensures TraceInv(s)
  {}

  lemma ReachableTrace(s: State)
    requires Reachable(s)
    ensures Inv(s) && TraceInv(s)
  {
    var s0: State, ls: seq<Label> :| Booted(s0) && Exec(s0, ls) == Some(s);
    BootInv(s0);
    BootTrace(s0);
    RunTrace(s0, ls, s);
  }

  // ---------------------------------------------------------------- Stop returned nil

  /** Whenever `Stop` returns nil, no goroutine is left, the controller is idle, and everything its plan
      covers is down, wherever in its life the cancelled attempt was caught. */
  lemma StopLeavesNothingOfItsMode(s: State, o: Outcome, t: State)
    requires Reachable(s) && s.api.StopForgets? && Step(s, ApiStep(o)) == Some(t)
    ensures t.workers == map[] && StatusOf(t.ctl) == StatusIdle
    ensures Chain !in t.world
    ensures s.api.job.mode == Tun ==> t.world !! Kinds(Tun)
    ensures s.api.job.mode == SysProxy || (s.api.job.pending && s.api.job.previous == SysProxy) ==> Proxy !in t.world
    ensures t.session == if o.ok then None else s.session
  {
    ReachableTrace(s);
    var job := s.api.job;
    var plan := PlanOf(job);
    assert plan[..|plan|] == plan;
    TeardownCovers(job.mode);
    EnsuredConcat(TeardownPlan(job.mode), plan[|TeardownPlan(job.mode)|..]);
    assert plan == TeardownPlan(job.mode) + plan[|TeardownPlan(job.mode)|..];
    if job.pending && job.previous == SysProxy && job.mode != SysProxy {
      assert plan[|TeardownPlan(job.mode)|..] == ProxyOff;
      assert ProxyOff[1..] == [ProxyIsSet];
      assert Proxy in Ensured(ProxyOff);
    }
  }

  /** For a `Stop` that cancelled attempt `a` and returned nil, now or at any earlier point of the run:
      its operations were the full plan, each one succeeded, every operation `a` ever issued came before
      the first of them, and `a` is gone for good. */
  lemma StopComesLast(s: State, k: nat, a: nat)
    requires Reachable(s) && k < |s.trace| && s.trace[k].StopReturned? && s.trace[k].job.victim == Some(a)
    ensures a !in s.workers
    ensures var StopReturned(job, from) := s.trace[k];
            && from + |PlanOf(job)| == k
            && (forall j :: from <= j < k ==> s.trace[j] == Issued(Actor.Api, PlanOf(job)[j - from], true))
            && (forall j :: 0 <= j < |s.trace| && s.trace[j].Issued? && s.trace[j].who == Attempt(a) ==> j < from)
  {
    ReachableTrace(s);
    assert StopKept(s, k);
  }

  // ---------------------------------------------------------------- unsolicited drops

  predicate NoApiCall(ls: seq<Label>) { forall i :: 0 <= i < |ls| ==> !ls[i].CallStart? && !ls[i].CallStop? }

  /** A kill-switch stop: clean-up owed, nobody owns the controller, every goroutine is on its way out. */
  ghost predicate Blocked(s: State) {
    && s.api.Ready? && s.ctl.cancel.None? && s.ctl.cleanupPending
    && forall a :: a in s.workers ==> s.workers[a].pc.Leaving?
  }

  lemma {:induction false} BlockedStays(s: State, ls: seq<Label>, t: State)
    requires Blocked(s) && NoApiCall(ls) && Exec(s, ls) == Some(t)
    ensures Blocked(t) && t.trace == s.trace && t.ctl == s.ctl && s.world - {Chain} <= t.world <= s.world
  {
    if ls != [] {
      var mid := Exec(s, ls[..|ls| - 1]).value;
      BlockedStays(s, ls[..|ls| - 1], mid);
      assert !ls[|ls| - 1].CallStart? && !ls[|ls| - 1].CallStop?;
    }
  }

  /** A drop handled with the kill switch on (or unreadable): however the run continues, until the next
      `Start` or `Stop` the status is error, nothing is torn down and nothing comes back up. */
  lemma KillSwitchHolds(s: State, a: nat, o: Outcome, t: State, ls: seq<Label>, u: State)
    requires Reachable(s) && a in s.workers && s.workers[a].pc == DropDecides(true)
    requires Step(s, Work(a, o)) == Some(t) && a in t.workers
    requires NoApiCall(ls) && Exec(t, ls) == Some(u)
    ensures StatusOf(u.ctl) == StatusError && u.ctl.cleanupMode == s.workers[a].mode
    ensures u.trace == s.trace
    ensures s.world - {Chain} <= u.world <= s.world
  {
    ReachableInv(s);
    assert Blocked(t);
    BlockedStays(t, ls, u);
  }

  /** A drop handled with the kill switch off: by the time the poller settles it has run one full teardown
      for the attempt's mode, and clean-up is owed exactly when a step failed or it was owed already. */
  lemma DropRunsOneTeardown(s: State, a: nat, o: Outcome, t: State)
    requires Reachable(s) && a in s.workers && s.workers[a].pc.DropTears? && s.workers[a].pc.todo == []
    requires Step(s, Work(a, o)) == Some(t)
    ensures var w := s.workers[a];
            && Ran(s.trace, w.pc.from, Attempt(a), TeardownPlan(w.mode), w.pc.failed)
            && w.pc.from + |TeardownPlan(w.mode)| == |s.trace|
            && (t.ctl.cleanupPending <==> w.pc.failed || s.ctl.cleanupPending)
            && (w.pc.failed ==> t.ctl.cleanupMode == w.mode)
            && (!w.pc.failed && w.mode != Other ==> t.world !! Kinds(w.mode))
    ensures t.ctl.cancel.None? && t.trace == s.trace
  {
    ReachableTrace(s);
    var plan := TeardownPlan(s.workers[a].mode);
    assert plan[..|plan|] == plan;
    TeardownCovers(s.workers[a].mode);
  }
}

/**
 No orphan: whatever an attempt put on the host is always answered for by
 someone (a live worker, a `Stop` in progress, or the recorded clean-up debt), as long
 as a run respects the four conditions of `Condition`. ChainWitness proves that a step
 which breaks one of them can leave something up behind an idle controller.
 */
module ChainLeaks {
  import opened Base
  import opened ChainOps
  import opened ChainMachine
  import opened ChainSafety
  import opened ChainStop

  /** What a teardown in mode `m` covers: everything of a known mode, of an unknown one the chain only. */
  function Answerable(m: Mode): set<Res> { if m == Other then {Chain} else Kinds(m) }

  /** What the recorded debt makes the next `Stop` clean up. */
  function Debt(c: Ctl): set<Res> {
    if !c.cleanupPending then {}
    else
      {Chain} + (if c.mode == Tun then Kinds(Tun) else {})
      + (if c.mode == SysProxy || c.cleanupMode == SysProxy then {Proxy} else {})
  }

  /** What a worker has up and will deal with itself. */
  function Holds(w: Worker): set<Res> {
    match w.pc
    case Loads => {}
    case Up(k) => AddedBy(Forward(w.mode)[..if k < |Forward(w.mode)| then k else |Forward(w.mode)|])
    case Undo(todo, thenProxy) => Ensured(todo) + if thenProxy then {Proxy} else {}
    case Back(ok) => if ok then Answerable(w.mode) else {}
    case FailCancels => {}
    case FailClears => {}
    case Leaving => {}
    case DropTears(_, todo, failed) => if failed then Answerable(w.mode) else Ensured(todo)
    case _ => Answerable(w.mode)
  }

  /** What a `Stop` in progress still has to take down. */
  function StopHolds(api: Api): set<Res>
    requires Stopping(api)
  {
    match api
    case StopTears(job, _, todo, failed) => if failed then Ensured(PlanOf(job)) else Ensured(todo)
    case StopForgets(_, _) => {}
    case _ => Ensured(PlanOf(api.job))
  }

  function OwnerHolds(s: State): set<Res> {
    if s.ctl.cancel.Some? && s.ctl.cancel.value in s.workers then Holds(s.workers[s.ctl.cancel.value]) else {}
  }

  ghost predicate Covered(s: State) {
    s.world <= if Stopping(s.api) then StopHolds(s.api) else Debt(s.ctl) + OwnerHolds(s)
  }

  /** `Start` takes this call: nobody is connected and the server exists. */
  predicate Accepted(s: State, l: Label) {
    l.CallStart? && s.api.Ready? && s.ctl.cancel.None? && l.found.Some?
  }

  /** A proxy clean-up is on record, or in the hands of the `Stop` in progress. */
  predicate ProxyOwed(s: State) {
    if Stopping(s.api) then s.api.job.pending && s.api.job.previous == SysProxy
    else s.ctl.cleanupPending && s.ctl.cleanupMode == SysProxy
  }

  /** The poller of worker `a` is about to put its own clean-up on record, over whatever stands there. */
  predicate Records(s: State, a: nat) {
    a in s.workers && var pc := s.workers[a].pc;
    || (pc.DropDecides? && pc.blocking && a !in s.canceled && s.ctl.cancel.Some?)
    || (pc.DropTears? && pc.todo == [] && pc.failed)
  }

  /** The four conditions on a step. */
  predicate Condition(n: nat, s: State, l: Label) {
    match n
    case 1 =>  // a rollback inside bringUp takes down what it is for, unless a Stop or a recorded clean-up will
      l.Work? && l.a in s.workers && s.workers[l.a].pc.Undo? && s.workers[l.a].pc.todo != [] &&
      !Stopping(s.api) && !s.ctl.cleanupPending ==>
        l.o.ok || s.world !! Ensures(s.workers[l.a].pc.todo[0])
    case 2 =>  // only the two documented modes are started
      Accepted(s, l) ==> l.mode != Other
    case 3 =>  // system-proxy mode is not started over a TUN clean-up
      Accepted(s, l) && l.mode == SysProxy && s.ctl.cleanupPending ==>
        s.ctl.mode == SysProxy || (s.ctl.cleanupMode == SysProxy && s.world !! Kinds(Tun) - {Chain})
    case _ =>  // a TUN clean-up is not recorded over that of a proxy that is still set
      l.Work? && Records(s, l.a) && s.ctl.mode == Tun && ProxyOwed(s) ==> Proxy !in s.world
  }

  /** Every condition but number `k`; all four when `k` is 0. */
  predicate CarefulBut(k: nat, s: State, l: Label) {
    (k != 1 ==> Condition(1, s, l)) && (k != 2 ==> Condition(2, s, l)) &&
    (k != 3 ==> Condition(3, s, l)) && (k != 4 ==> Condition(4, s, l))
  }

  predicate CarefulRun(k: nat, s: State, ls: seq<Label>) {
    ls == [] ||
    (var r := Exec(s, ls[..|ls| - 1]);
     CarefulRun(k, s, ls[..|ls| - 1]) && (r.Some? ==> CarefulBut(k, r.value, ls[|ls| - 1])))
  }

  /** How the debt record relates to the modes in play on a careful run. */
  ghost predicate Consistent(s: State) {
    && (s.ctl.mode == Other ==>
          && (s.ctl.cleanupPending ==> s.ctl.cleanupMode == Other)
          && (Stopping(s.api) && s.api.job.pending ==> s.api.job.previous == Other && s.ctl.cleanupMode == Other))
    && (s.ctl.cleanupPending && s.ctl.mode == SysProxy ==> s.ctl.cleanupMode == SysProxy)
    && (s.api.StartWaits? ==> s.api.mode != Other && s.ctl.cancel.None? && MayFollow(s, s.api.mode))
    && (Stopping(s.api) && s.api.job.pending && s.api.job.previous == SysProxy ==>
          s.ctl.cleanupMode == SysProxy || (s.ctl.mode == Tun && Proxy !in s.world))
    && (Stopping(s.api) && s.api.job.pending && s.api.job.mode == SysProxy ==> s.api.job.previous == SysProxy)
    && (s.api.StopTears? ==> Ensured(s.api.todo) <= Ensured(PlanOf(s.api.job)) && TakesOnly(s.api.todo))
    && (forall a :: a in s.workers && Active(s.workers[a].pc) ==> Sensible(s, s.workers[a]))
  }

  /** A start in mode `m` loses no clean-up that is owed. */
  predicate MayFollow(s: State, m: Mode) {
    m == SysProxy && s.ctl.cleanupPending ==>
      s.ctl.mode == SysProxy || (s.ctl.cleanupMode == SysProxy && s.world !! Kinds(Tun) - {Chain})
  }

  /** No operation of a rollback repeats what another one takes down, and those on the proxy stand alone. */
  ghost predicate Once(todo: seq<Op>) {
    todo == [] ||
    (&& Once(todo[1..]) && Ensures(todo[0]) !! Ensured(todo[1..])
     && (Ensures(todo[0]) != {} ==> ProxyClear !in todo[1..] && ProxyIsSet !in todo[1..]))
  }

  ghost predicate Sensible(s: State, w: Worker) {
    (w.mode == Other ==> w.pc.Polling? || w.pc.Polled? || w.pc.DropDecides? || w.pc.DropTears?) &&
    match w.pc
    case Up(k) => k <= |Forward(w.mode)|
    case Undo(todo, thenProxy) =>
      && Ensured(todo) <= Kinds(w.mode) && (thenProxy ==> w.mode == SysProxy && Proxy !in Ensured(todo) && ProxyClear !in todo)
      && TakesOnly(todo) && Once(todo)
    case WonClears(todo, failed) =>
      && w.mode == Tun && (todo == ProxyOff || todo == [ProxyIsSet] || todo == [])
      && (todo == [] && !failed ==> Proxy !in s.world)
    case WonSettles => w.mode == Tun && s.ctl.cleanupPending && s.ctl.cleanupMode == SysProxy ==> Proxy !in s.world
    case DropTears(_, todo, _) =>
      Ensured(todo) <= Answerable(w.mode) && TakesOnly(todo)
    case _ => true
  }

  ghost predicate Good(s: State) { Inv(s) && Consistent(s) && Covered(s) }

  // ---------------------------------------------------------------- what the sequences cover

  lemma PlanCovers(job: Job)
    ensures Ensured(PlanOf(job)) == Answerable(job.mode) + if job.pending && job.previous == SysProxy then {Proxy} else {}
  {
    TeardownCovers(job.mode);
    var owed := if job.pending && job.previous == SysProxy && job.mode != SysProxy then ProxyOff else [];
    EnsuredConcat(TeardownPlan(job.mode), owed);
    EnsuredOfTwo(ProxyClear, ProxyIsSet);
  }

  // ---------------------------------------------------------------- the API caller

  lemma LaunchGood(s: State, srv: Server, m: Mode, t: State)
    requires Good(s) && !Stopping(s.api) && s.ctl.cancel.None? && m != Other && t == Launch(s, srv, m) && Inv(t)
    requires MayFollow(s, m)
    requires forall a :: a in s.workers ==> !Active(s.workers[a].pc)
    ensures Good(t)
  {
  }

  lemma StopTakesGood(s: State, t: State)
    requires Good(s) && StopStep(s) == Some(t) && Inv(t)
    ensures Good(t)
  {
    if Stopping(t.api) {
      PlanCovers(t.api.job);
      if s.ctl.cancel.Some? {
        HoldsWithinKinds(s, s.ctl.cancel.value);
      }
    }
  }

  lemma HoldsWithinKinds(s: State, a: nat)
    requires Good(s) && a in s.workers && Active(s.workers[a].pc)
    ensures Holds(s.workers[a]) <= Answerable(s.workers[a].mode)
  {
    var w := s.workers[a];
    if w.pc.Up? {
      AddedUpTo(w.mode, w.pc.k);
    }
  }

  /** One operation of a teardown: nothing comes up, and on success its part is settled. */
  lemma TakesDown(w: World, op: Op, o: Outcome, rest: set<Res>)
    requires Adds(op) == {} && Possible(w, op, o)
    ensures Effect(w, op, o) <= w
    ensures o.ok && w <= Ensures(op) + rest ==> Effect(w, op, o) <= rest
  {
  }

  lemma StopIssuesGood(s: State, o: Outcome, t: State)
    requires Good(s) && s.api.StopTears? && s.api.todo != [] && ApiContinue(s, o) == Some(t) && Inv(t)
    ensures Good(t)
  {
    var todo := s.api.todo;
    TakesDown(s.world, todo[0], o, Ensured(todo[1..]));
  }

  lemma StopSettlesGood(s: State, o: Outcome, t: State)
    requires Good(s) && s.api.StopTears? && s.api.todo == [] && ApiContinue(s, o) == Some(t) && Inv(t)
    ensures Good(t)
  {
    PlanCovers(s.api.job);
  }

  lemma StopMovesGood(s: State, o: Outcome, t: State)
    requires Good(s) && Stopping(s.api) && !s.api.StopTears? && ApiContinue(s, o) == Some(t) && Inv(t)
    ensures Good(t)
  {
    PlansAddNothing(s.api.job, s.api.job.mode);
  }

  // ---------------------------------------------------------------- the workers

  /** What remains to be shown after a step of the one active worker. */
  lemma WorkerGood(s: State, a: nat, t: State)
    requires Good(s) && Inv(t) && Shape(s, a, t) && Active(s.workers[a].pc)
    requires t.ctl.mode == s.ctl.mode
    requires a in t.workers && Active(t.workers[a].pc) ==> Sensible(t, t.workers[a])
    requires t.ctl.cleanupPending && t.ctl.mode == SysProxy ==> t.ctl.cleanupMode == SysProxy
    requires t.ctl.cleanupMode == s.ctl.cleanupMode || t.ctl.cleanupMode == t.ctl.mode
    requires t.ctl.mode == Other && t.ctl.cleanupPending ==> t.ctl.cleanupMode == Other
    requires t.ctl.cleanupMode == s.ctl.cleanupMode || t.ctl.mode != Tun || (ProxyOwed(s) ==> Proxy !in t.world)
    requires t.world <= s.world + Answerable(s.ctl.mode)
    requires !Stopping(t.api) ==> t.world <= Debt(t.ctl) + OwnerHolds(t)
    ensures Good(t)
  {
    if Stopping(t.api) {
      PlanCovers(t.api.job);
    }
  }

  /** One forward operation, seen from the host: on success the attempt holds one stage more, on failure
      its rollback covers everything reached so far. */
  lemma ForwardLocal(m: Mode, k: nat, w: World, debt: set<Res>, o: Outcome)
    requires m != Other && k < |Forward(m)| && w <= debt + AddedBy(Forward(m)[..k])
    ensures var v := Effect(w, Forward(m)[k], o); var back := Compensation(m, k);
            && v <= w + Kinds(m)
            && (o.ok ==> v <= debt + AddedBy(Forward(m)[..k + 1]))
            && (!o.ok ==> v <= debt + Ensured(back) + if ThenClearsProxy(m, k) then {Proxy} else {})
            && Ensured(back) <= Kinds(m) && TakesOnly(back)
  {
    AddedUpTo(m, k + 1);
    CompensationCovers(m, k);
  }

  lemma CompensationOnce(m: Mode, k: nat)
    requires m != Other
    ensures Once(Compensation(m, k)) && TakesOnly(Compensation(m, k))
    ensures ThenClearsProxy(m, k) ==> Proxy !in Ensured(Compensation(m, k)) && ProxyClear !in Compensation(m, k)
  {
    OnceOfOne(RouteRestore);
    OnceOfOne(StopChain);
    OnceOfTwo(TunDestroy, RouteRestore);
    OnceOfThree(StopChain, TunDestroy, RouteRestore);
    OnceOfThree(StopChain, RouteRestore, TunDestroy);
  }

  lemma OnceOfThree(a: Op, b: Op, c: Op)
    requires Ensures(a) !! Ensures(b) + Ensures(c) && Ensures(b) !! Ensures(c)
    requires {b, c} !! {ProxyClear, ProxyIsSet}
    ensures Once([a, b, c])
  {
    OnceOfTwo(b, c);
    assert [a, b, c][1..] == [b, c];
  }

  lemma OnceOfOne(a: Op)
    ensures Once([a]) && Ensured([a]) == Ensures(a)
  {
    var rest := [a][1..];
    assert rest == [] && Once(rest) && Ensured(rest) == {};
  }

  lemma OnceOfTwo(a: Op, b: Op)
    requires Ensures(a) !! Ensures(b) && (Ensures(a) != {} ==> b != ProxyClear && b != ProxyIsSet)
    ensures Once([a, b]) && Ensured([a, b]) == Ensures(a) + Ensures(b)
  {
    OnceOfOne(b);
    assert [a, b][1..] == [b];
  }

  lemma UpGood(s: State, a: nat, o: Outcome, t: State)
    requires Good(s) && Inv(t) && Shape(s, a, t)
    requires s.workers[a].pc.Up? && UpStep(s, a, s.workers[a].pc.k, o) == Some(t)
    ensures Good(t)
  {
    var m, k := s.workers[a].mode, s.workers[a].pc.k;
    if k < |Forward(m)| {
      ForwardLocal(m, k, s.world, s.world, o);
      CompensationOnce(m, k);
      if !Stopping(s.api) {
        ForwardLocal(m, k, s.world, Debt(s.ctl), o);
      }
    } else {
      AddedUpTo(m, k);
    }
    WorkerGood(s, a, t);
  }

  lemma UndoIssuesGood(s: State, a: nat, o: Outcome, t: State)
    requires Good(s) && Inv(t) && Shape(s, a, t) && CarefulBut(0, s, Work(a, o))
    requires var pc := s.workers[a].pc;
             pc.Undo? && pc.todo != [] && UndoStep(s, a, pc.todo, pc.thenProxy, o) == Some(t)
    ensures Good(t)
  {
    var w := s.workers[a];
    var todo := w.pc.todo;
    assert Sensible(s, w) && Sensible(t, t.workers[a]);
    var rest := Debt(s.ctl) + Ensured(todo[1..]) + if w.pc.thenProxy then {Proxy} else {};
    TakesDown(s.world, todo[0], o, rest);
    if !Stopping(s.api) && s.ctl.cleanupPending {
      assert Kinds(s.ctl.mode) <= Debt(s.ctl);
    }
    WorkerGood(s, a, t);
  }

  lemma UndoDecidesGood(s: State, a: nat, o: Outcome, t: State)
    requires Good(s) && Inv(t) && Shape(s, a, t)
    requires var pc := s.workers[a].pc;
             pc.Undo? && pc.todo == [] && UndoStep(s, a, pc.todo, pc.thenProxy, o) == Some(t)
    ensures Good(t)
  {
    EnsuredOfTwo(ProxyClear, ProxyIsSet);
    OnceOfTwo(ProxyClear, ProxyIsSet);
    WorkerGood(s, a, t);
  }

  lemma WonClearsGood(s: State, a: nat, o: Outcome, t: State)
    requires Good(s) && Inv(t) && Shape(s, a, t)
    requires s.workers[a].pc.WonClears? && WonStep(s, a, o) == Some(t)
    ensures Good(t)
  {
    var todo := s.workers[a].pc.todo;
    assert ProxyOff[1..] == [ProxyIsSet] && [ProxyIsSet][1..] == [];
    if todo != [] {
      TakesDown(s.world, todo[0], o, {});
    }
    WorkerGood(s, a, t);
  }

  lemma WonGood(s: State, a: nat, o: Outcome, t: State)
    requires Good(s) && Inv(t) && Shape(s, a, t) && WonStep(s, a, o) == Some(t)
    requires !s.workers[a].pc.WonClears?
    ensures Good(t)
  {
    WorkerGood(s, a, t);
  }

  lemma FailGood(s: State, a: nat, o: Outcome, t: State)
    requires Good(s) && Inv(t) && Shape(s, a, t) && WorkStep(s, a, o) == Some(t)
    requires var pc := s.workers[a].pc; pc.Loads? || pc.Back? || pc.FailCancels? || pc.FailClears?
    ensures Good(t)
  {
    assert Forward(s.workers[a].mode)[..0] == [];
    WorkerGood(s, a, t);
  }

  lemma PollGood(s: State, a: nat, o: Outcome, t: State)
    requires Good(s) && Inv(t) && Shape(s, a, t) && WorkStep(s, a, o) == Some(t)
    requires var pc := s.workers[a].pc; pc.Polling? || pc.Polled?
    ensures Good(t)
  {
    WorkerGood(s, a, t);
  }

  lemma DropGood(s: State, a: nat, o: Outcome, t: State)
    requires Good(s) && Inv(t) && Shape(s, a, t) && CarefulBut(0, s, Work(a, o))
    requires var pc := s.workers[a].pc; pc.DropDecides? && DropStep(s, a, pc.blocking) == Some(t)
    ensures Good(t)
  {
    if s.workers[a].pc.blocking {
      WorkerGood(s, a, t);
    } else {
      DropBeginsGood(s, a, t);
    }
  }

  lemma DropBeginsGood(s: State, a: nat, t: State)
    requires Good(s) && Inv(t) && Shape(s, a, t) && s.workers[a].pc.DropDecides? && DropStep(s, a, false) == Some(t)
    ensures Good(t)
  {
    TeardownCovers(s.ctl.mode);
    PlansAddNothing(Job(None, s.ctl.mode, false, s.ctl.mode), s.ctl.mode);
    WorkerGood(s, a, t);
  }

  lemma DropIssuesGood(s: State, a: nat, o: Outcome, t: State)
    requires Good(s) && Inv(t) && Shape(s, a, t)
    requires var pc := s.workers[a].pc;
             pc.DropTears? && pc.todo != [] && DropTearStep(s, a, pc.from, pc.todo, pc.failed, o) == Some(t)
    ensures Good(t)
  {
    var todo := s.workers[a].pc.todo;
    TakesDown(s.world, todo[0], o, Debt(s.ctl) + Ensured(todo[1..]));
    assert Sensible(t, t.workers[a]) by { assert Sensible(s, s.workers[a]); }
    WorkerGood(s, a, t);
  }

  lemma DropSettlesGood(s: State, a: nat, o: Outcome, t: State)
    requires Good(s) && Inv(t) && Shape(s, a, t) && CarefulBut(0, s, Work(a, o))
    requires var pc := s.workers[a].pc;
             pc.DropTears? && pc.todo == [] && DropTearStep(s, a, pc.from, pc.todo, pc.failed, o) == Some(t)
    ensures Good(t)
  {
    assert Sensible(s, s.workers[a]);
    WorkerGood(s, a, t);
  }

  lemma LeavingGood(s: State, a: nat, o: Outcome, t: State)
    requires Good(s) && WorkStep(s, a, o) == Some(t) && Inv(t) && s.workers[a].pc.Leaving?
    ensures Good(t)
  {
  }

  // ---------------------------------------------------------------- runs

  lemma WorkShape(s: State, a: nat, o: Outcome, t: State)
    requires WorkStep(s, a, o) == Some(t)
    ensures Shape(s, a, t)
  {
    var pc := s.workers[a].pc;
    if pc.Up? || pc.Undo? || pc.WonClears? {
      IssuingShape(s, a, o, t);
    } else if !pc.DropTears? {
      QuietShape(s, a, o, t);
    }
  }

  lemma WorkGood(s: State, a: nat, o: Outcome, t: State)
    requires Good(s) && CarefulBut(0, s, Work(a, o)) && Step(s, Work(a, o)) == Some(t)
    requires Inv(t)
    ensures Good(t)
  {
    WorkShape(s, a, o, t);
    match s.workers[a].pc
    case Up(_) => UpGood(s, a, o, t);
    case Undo(todo, _) => if todo != [] { UndoIssuesGood(s, a, o, t); } else { UndoDecidesGood(s, a, o, t); }
    case WonClears(_, _) => WonClearsGood(s, a, o, t);
    case WonReads => WonGood(s, a, o, t);
    case WonSettles => WonGood(s, a, o, t);
    case WonSaves => WonGood(s, a, o, t);
    case Polling => PollGood(s, a, o, t);
    case Polled(_, _) => PollGood(s, a, o, t);
    case DropDecides(_) => DropGood(s, a, o, t);
    case DropTears(_, todo, _) => if todo != [] { DropIssuesGood(s, a, o, t); } else { DropSettlesGood(s, a, o, t); }
    case Leaving => LeavingGood(s, a, o, t);
    case _ => FailGood(s, a, o, t);
  }

  lemma StepGood(s: State, l: Label, t: State)
    requires Good(s) && CarefulBut(0, s, l) && Step(s, l) == Some(t)
    ensures Good(t)
  {
    StepInv(s, l, t);
    match l
    case Work(a, o) => WorkGood(s, a, o, t);
    case CallStop => StopTakesGood(s, t);
    case CallStart(found, m) =>
      if t != s && !s.ctl.cleanupPending {
        LaunchGood(s, found.value, m, t);
      }
    case ApiStep(o) =>
      if s.api.StartWaits? {
        LaunchGood(s, s.api.server, s.api.mode, t);
      } else if s.api.StopTears? {
        if s.api.todo != [] { StopIssuesGood(s, o, t); } else { StopSettlesGood(s, o, t); }
      } else {
        StopMovesGood(s, o, t);
      }
    case CoresDie =>
  }

  lemma {:induction false} RunGood(s: State, ls: seq<Label>, t: State)
    requires Good(s) && CarefulRun(0, s, ls) && Exec(s, ls) == Some(t)
    ensures Good(t)
  {
    if ls != [] {
      var mid := Exec(s, ls[..|ls| - 1]).value;
      RunGood(s, ls[..|ls| - 1], mid);
      StepGood(mid, ls[|ls| - 1], t);
    }
  }

  /** Over every careful run from a boot state whose host residue is accounted for: whenever no API call is
      in progress and the status reads idle, nothing at all is left up. */
  lemma NoOrphans(s: State, ls: seq<Label>, t: State)
    requires Booted(s) && Covered(s)
    requires CarefulRun(0, s, ls) && Exec(s, ls) == Some(t)
    ensures t.api.Ready? && StatusOf(t.ctl) == StatusIdle ==> t.world == {}
    ensures t.world <= if Stopping(t.api) then StopHolds(t.api) else Debt(t.ctl) + OwnerHolds(t)
  {
    BootInv(s);
    assert Good(s);
    RunGood(s, ls, t);
  }
}

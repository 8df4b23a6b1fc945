/**
 The waits of the connection controller end. `Stop` and a `Start` over an owed clean-up wait until no goroutine is
 left; every goroutine they wait for can always go on, and leaves after a bounded number of its own steps, whatever
 the operations answer and whatever else happens meanwhile.
 */
module ChainProgress {
  import opened Base
  import opened ChainOps
  import opened ChainMachine
  import opened ChainSafety
  import opened ChainStop
  import opened ChainLeaks

  const Bad := Outcome(false, true)

  /** A bound on the steps a worker has left once it is cancelled. */
  function Rank(w: Worker): nat {
    match w.pc
    case Leaving => 1
    case Polled(_, _) => 2
    case DropDecides(_) => 2
    case Polling => 3
    case DropTears(_, todo, _) => 2 + |todo|
    case Back(_) => 2
    case FailClears => 2
    case FailCancels => 3
    case Undo(todo, thenProxy) => 3 + |todo| + if thenProxy then 3 else 0
    case WonSaves => 4
    case WonSettles => 5
    case WonClears(todo, _) => 6 + |todo|
    case WonReads => 9
    case Up(k) => 10 + if k < |Forward(w.mode)| then |Forward(w.mode)| - k else 0
    case Loads => 11 + |Forward(w.mode)|
  }

  /** If worker `a` is still there, it has been told to leave or is about to. */
  predicate Going(s: State, a: nat) { a in s.workers ==> a in s.canceled || s.workers[a].pc.Leaving? }

  ghost predicate Nearer(s: State, a: nat, t: State)
    requires a in s.workers
  {
    s.canceled <= t.canceled && t.next == s.next &&
    (t.workers == s.workers - {a} || (a in t.workers && t.workers == s.workers[a := t.workers[a]] && Rank(t.workers[a]) < Rank(s.workers[a])))
  }

  lemma UpNearer(s: State, a: nat, o: Outcome, t: State)
    requires a in s.workers && s.workers[a].pc.Up? && UpStep(s, a, s.workers[a].pc.k, o) == Some(t)
    ensures Nearer(s, a, t)
  {}

  lemma UndoNearer(s: State, a: nat, o: Outcome, t: State)
    requires a in s.workers && s.workers[a].pc.Undo?
    requires UndoStep(s, a, s.workers[a].pc.todo, s.workers[a].pc.thenProxy, o) == Some(t)
    ensures Nearer(s, a, t)
  {}

  lemma WonNearer(s: State, a: nat, o: Outcome, t: State)
    requires a in s.workers && WonStep(s, a, o) == Some(t)
    ensures Nearer(s, a, t)
  {}

  lemma DropNearer(s: State, a: nat, o: Outcome, t: State)
    requires a in s.workers && (s.workers[a].pc.DropTears? || (s.workers[a].pc.DropDecides? && a in s.canceled))
    requires WorkStep(s, a, o) == Some(t)
    ensures Nearer(s, a, t)
  {}

  /** Its own steps bring it nearer to the exit. */
  lemma StepsDown(s: State, a: nat, o: Outcome, t: State)
    requires a in s.workers && Going(s, a) && Step(s, Work(a, o)) == Some(t)
    ensures Nearer(s, a, t)
  {
    match s.workers[a].pc
    case Up(_) => UpNearer(s, a, o, t);
    case Undo(_, _) => UndoNearer(s, a, o, t);
    case WonReads => WonNearer(s, a, o, t);
    case WonClears(_, _) => WonNearer(s, a, o, t);
    case WonSettles => WonNearer(s, a, o, t);
    case WonSaves => WonNearer(s, a, o, t);
    case DropDecides(_) => DropNearer(s, a, o, t);
    case DropTears(_, _, _) => DropNearer(s, a, o, t);
    case _ =>
  }

  /** Nothing else moves it, or takes the order back. */
  lemma OthersStep(s: State, l: Label, a: nat, t: State)
    requires Going(s, a) && a < s.next && Step(s, l) == Some(t) && !(l.Work? && l.a == a)
    ensures Going(t, a) && a < t.next && Left(t, a) == Left(s, a)
  {
    if l.Work? {
      WorkShape(s, l.a, l.o, t);
    }
  }

  /** And it is never stuck. */
  lemma CanGoOn(s: State, a: nat)
    requires a in s.workers && Going(s, a)
    ensures Step(s, Work(a, Bad)).Some?
  {}

  function StepsOf(ls: seq<Label>, a: nat): nat {
    if ls == [] then 0
    else StepsOf(ls[..|ls| - 1], a) + if ls[|ls| - 1].Work? && ls[|ls| - 1].a == a then 1 else 0
  }

  function Left(s: State, a: nat): nat { if a in s.workers then Rank(s.workers[a]) else 0 }

  /** In every run a cancelled worker takes no more steps than its rank, and after that many it is gone. */
  lemma {:induction false} CancelledWorkerLeaves(s: State, ls: seq<Label>, t: State, a: nat)
    requires Going(s, a) && a < s.next && Exec(s, ls) == Some(t)
    ensures Going(t, a) && a < t.next && StepsOf(ls, a) + Left(t, a) <= Left(s, a)
    ensures StepsOf(ls, a) == Left(s, a) ==> a !in t.workers
  {
    if ls != [] {
      var init, l := ls[..|ls| - 1], ls[|ls| - 1];
      var mid := Exec(s, init).value;
      CancelledWorkerLeaves(s, init, mid, a);
      if l.Work? && l.a == a {
        StepsDown(mid, a, l.o, t);
      } else {
        OthersStep(mid, l, a, t);
      }
    }
  }

  // ---------------------------------------------------------------- the two waits

  /** `Stop` waits only after it has told its victim. */
  ghost predicate Told(s: State) {
    s.api.StopWaits? && s.api.job.victim.Some? ==> s.api.job.victim.value in s.canceled
  }

  lemma {:induction false} RunTold(s: State, ls: seq<Label>, t: State)
    requires Told(s) && Exec(s, ls) == Some(t)
    ensures Told(t)
  {
    if ls != [] {
      var mid := Exec(s, ls[..|ls| - 1]).value;
      RunTold(s, ls[..|ls| - 1], mid);
    }
  }

  /** Whenever a call waits, every goroutine left has been told to leave and can go on, and once none is left the call
      can go on too. With the bound above, no wait lasts for ever unless some goroutine is never run. */
  lemma WaitsEnd(s: State, o: Outcome)
    requires Reachable(s) && (s.api.StopWaits? || s.api.StartWaits?)
    ensures forall a :: a in s.workers ==> Going(s, a) && a < s.next && Step(s, Work(a, Bad)).Some?
    ensures s.workers == map[] ==> Step(s, ApiStep(o)).Some?
  {
    ReachableInv(s);
    var s0: State, ls: seq<Label> :| Booted(s0) && Exec(s0, ls) == Some(s);
    RunTold(s0, ls, s);
    forall a | a in s.workers ensures Going(s, a) && Step(s, Work(a, Bad)).Some? {
      CanGoOn(s, a);
    }
  }
}

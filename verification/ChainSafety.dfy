/** Ownership and teardown ordering over every run of the connection controller. */
module ChainSafety {
  import opened Base
  import opened ChainOps
  import opened ChainMachine

  predicate Active(pc: Pc) { pc != Leaving }

  predicate Stopping(api: Api) { api.StopCancels? || api.StopWaits? || api.StopTears? || api.StopForgets? }

  /** `Stop` has taken the fields but has not yet seen its victim finish. */
  predicate Draining(api: Api) { api.StopCancels? || api.StopWaits? }

  /** Attempt `a` still answers to someone: it is the stored one, or the one `Stop` is waiting for. */
  predicate Owned(s: State, a: nat) {
    s.ctl.cancel == Some(a) || (Draining(s.api) && s.api.job.victim == Some(a))
  }

  ghost predicate Inv(s: State) {
    && (forall a :: a in s.workers ==> a < s.next)
    && (forall a :: a in s.canceled ==> a < s.next)
    && (Stopping(s.api) && s.api.job.victim.Some? ==> s.api.job.victim.value < s.next)
    && (forall a :: a in s.workers && Active(s.workers[a].pc) ==> Owned(s, a) && s.workers[a].mode == s.ctl.mode)
    && (s.ctl.cancel.Some? ==>
          var a := s.ctl.cancel.value;
          && s.api.Ready?
          && a in s.workers && Active(s.workers[a].pc)
          && (a in s.canceled ==> s.workers[a].pc == FailClears))
    && (Stopping(s.api) ==> s.api.job.mode == s.ctl.mode)
    && (s.api.StopTears? || s.api.StopForgets? ==> s.workers == map[])
  }

  lemma BootInv(s: State)
    requires Booted(s)
    ensures Inv(s)
  {}

  lemma ApiInv(s: State, l: Label, t: State)
    requires Inv(s) && !l.Work? && Step(s, l) == Some(t)
    ensures Inv(t)
  {
  }

  /** A worker that goes on without touching who owns the controller. */
  lemma Moves(s: State, a: nat, pc: Pc, t: State)
    requires Inv(s) && a in s.workers && Active(s.workers[a].pc) && Active(pc) && !s.workers[a].pc.FailClears?
    requires t.workers == s.workers[a := s.workers[a].(pc := pc)]
    requires t.ctl.cancel == s.ctl.cancel && t.ctl.mode == s.ctl.mode
    requires t.canceled == s.canceled && t.next == s.next && t.api == s.api
    ensures Inv(t)
  {}

  lemma BringUpInv(s: State, a: nat, o: Outcome, t: State)
    requires Inv(s) && WorkStep(s, a, o) == Some(t)
    requires var pc := s.workers[a].pc; pc.Loads? || pc.Up? || pc.Undo?
    ensures Inv(t)
  {
    Moves(s, a, t.workers[a].pc, t);
  }

  lemma WonInv(s: State, a: nat, o: Outcome, t: State)
    requires Inv(s) && a in s.workers && WonStep(s, a, o) == Some(t)
    ensures Inv(t)
  {
    Moves(s, a, t.workers[a].pc, t);
  }

  lemma FailInv(s: State, a: nat, o: Outcome, t: State)
    requires Inv(s) && WorkStep(s, a, o) == Some(t)
    requires var pc := s.workers[a].pc; pc.Back? || pc.FailCancels? || pc.FailClears? || pc.Leaving?
    ensures Inv(t)
  {
  }

  lemma PollInv(s: State, a: nat, o: Outcome, t: State)
    requires Inv(s) && WorkStep(s, a, o) == Some(t)
    requires var pc := s.workers[a].pc; pc.Polling? || pc.Polled?
    ensures Inv(t)
  {
    if a in t.workers {
      Moves(s, a, t.workers[a].pc, t);
    }
  }

  lemma DropInv(s: State, a: nat, o: Outcome, t: State)
    requires Inv(s) && WorkStep(s, a, o) == Some(t)
    requires var pc := s.workers[a].pc; pc.DropDecides? || pc.DropTears?
    ensures Inv(t)
  {
    if a in t.workers && Active(t.workers[a].pc) {
      Moves(s, a, t.workers[a].pc, t);
    }
  }

  lemma StepInv(s: State, l: Label, t: State)
    requires Inv(s) && Step(s, l) == Some(t)
    ensures Inv(t)
  {
    if l.Work? {
      var pc := s.workers[l.a].pc;
      if pc.Loads? || pc.Up? || pc.Undo? {
        BringUpInv(s, l.a, l.o, t);
      } else if pc.Back? || pc.FailCancels? || pc.FailClears? || pc.Leaving? {
        FailInv(s, l.a, l.o, t);
      } else if pc.Polling? || pc.Polled? {
        PollInv(s, l.a, l.o, t);
      } else if pc.DropDecides? || pc.DropTears? {
        DropInv(s, l.a, l.o, t);
      } else {
        WonInv(s, l.a, l.o, t);
      }
    } else {
      ApiInv(s, l, t);
    }
  }

  lemma {:induction false} RunInv(s: State, ls: seq<Label>, t: State)
    requires Inv(s) && Exec(s, ls) == Some(t)
    ensures Inv(t)
  {
    if ls != [] {
      var mid := Exec(s, ls[..|ls| - 1]).value;
      RunInv(s, ls[..|ls| - 1], mid);
      StepInv(mid, ls[|ls| - 1], t);
    }
  }

  lemma ReachableInv(s: State)
    requires Reachable(s)
    ensures Inv(s)
  {
    var s0: State, ls: seq<Label> :| Booted(s0) && Exec(s0, ls) == Some(s);
    BootInv(s0);
    RunInv(s0, ls, s);
  }

  // ---------------------------------------------------------------- one attempt at a time

  /** In every interleaving at most one attempt can still issue operations or touch the fields. */
  lemma OneAttemptAtATime(s: State, a: nat, b: nat)
    requires Reachable(s)
    requires a in s.workers && b in s.workers && Active(s.workers[a].pc) && Active(s.workers[b].pc)
    ensures a == b && Owned(s, a)
  {
    ReachableInv(s);
  }

  /** How a worker's step can touch the ownership fields: not at all, or by letting go of the stored
      cancel function when one is stored. */
  lemma WorkTouches(s: State, a: nat, o: Outcome, t: State)
    requires WorkStep(s, a, o) == Some(t)
    ensures t.ctl.cancel == s.ctl.cancel || t.ctl.cancel.None?
    ensures !Active(s.workers[a].pc) ==> t.ctl == s.ctl && t.trace == s.trace && t.world == s.world
  {}

  /** A worker's step never changes `cancel` or `current`, never issues an operation and never touches the
      host while a different attempt owns the controller. */
  lemma NeverTouchesANewerAttempt(s: State, a: nat, o: Outcome, t: State)
    requires Reachable(s) && Step(s, Work(a, o)) == Some(t)
    ensures s.ctl.cancel.Some? && s.ctl.cancel != Some(a) ==> t.ctl == s.ctl && t.trace == s.trace && t.world == s.world
    ensures t.ctl.cancel == s.ctl.cancel || (s.ctl.cancel == Some(a) && t.ctl.cancel.None?)
    ensures t.trace != s.trace ==> Owned(s, a)
  {
    ReachableInv(s);
    WorkTouches(s, a, o, t);
  }
}

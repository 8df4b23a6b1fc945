/**
 `bringUp`, `tearDown` and `clearSysproxyBestEffort` as the controller runs them:
 straight-line code over a host that answers each call with success or failure.
 Each is proved to issue exactly the sequences of ChainOps that the machine of
 ChainMachine issues step by step.
 */
module ChainCalls {
  import opened Base
  import opened ChainOps

  datatype Done = Done(op: Op, o: Outcome)

  function Ops(run: seq<Done>): (r: seq<Op>)
    ensures |r| == |run|
  {
    seq(|run|, i requires 0 <= i < |run| => run[i].op)
  }

  /** What running `run` from `w` does to the host, provided each answer was possible when it came. */
  function Replay(w: World, run: seq<Done>): Option<World> {
    if run == [] then Some(w)
    else
      var v := Replay(w, run[..|run| - 1]);
      var d := run[|run| - 1];
      if v.Some? && Possible(v.value, d.op, d.o) then Some(Effect(v.value, d.op, d.o)) else None
  }

  predicate Clean(run: seq<Done>) { forall i :: 0 <= i < |run| ==> run[i].o.ok }

  lemma {:induction false} ReplayConcat(w: World, a: seq<Done>, b: seq<Done>)
    ensures Replay(w, a + b) == if Replay(w, a).Some? then Replay(Replay(w, a).value, b) else None
  {
    if b == [] {
      assert a + b == a;
    } else {
      assert (a + b)[..|a + b| - 1] == a + b[..|b| - 1];
      ReplayConcat(w, a, b[..|b| - 1]);
    }
  }

  /** The operations of a failed bring-up: it got through stage k - 1, stage k failed, then the rollback. */
  function Trail(m: Mode, k: nat, owed: bool): seq<Op>
    requires k < |Forward(m)|
  {
    Forward(m)[..k + 1] + Compensation(m, k) + if ThenClearsProxy(m, k) && !owed then ProxyOff else []
  }

  predicate FailedAt(m: Mode, k: nat, owed: bool, run: seq<Done>) {
    && k < |Forward(m)| && Ops(run) == Trail(m, k, owed)
    && Clean(run[..k]) && !run[k].o.ok
  }

  /** Forward operations that all succeed put up exactly what they are for. */
  lemma {:induction false} ForwardReplays(m: Mode, k: nat, w: World, run: seq<Done>)
    requires k <= |Forward(m)| && Ops(run) == Forward(m)[..k] && Clean(run) && Replay(w, run).Some?
    ensures Replay(w, run).value == w + AddedBy(Forward(m)[..k])
  {
    AddedUpTo(m, k);
    if k > 0 {
      var init, ops := run[..k - 1], Ops(run);
      assert Ops(init) == ops[..k - 1];
      assert ops[..k - 1] == Forward(m)[..k - 1];
      assert run[k - 1].op == ops[k - 1];
      ForwardReplays(m, k - 1, w, init);
    }
  }

  /** One operation that only takes down, and succeeds. */
  lemma OneTakes(w: World, v: World, e: set<Res>, op: Op, o: Outcome)
    requires v <= w - e <= v + {Proxy} && Adds(op) == {} && o.ok && Possible(v, op, o)
    ensures var r := Effect(v, op, o); r <= w - (e + Ensures(op)) <= r + {Proxy}
    ensures op != ProxyClear && v == w - e ==> Effect(v, op, o) == w - (e + Ensures(op))
  {
    assert w - (e + Ensures(op)) == (w - e) - Ensures(op);
    assert op != ProxyClear ==> Effect(v, op, o) == v - Ensures(op);
    assert op == ProxyClear ==> Ensures(op) == {};
  }

  /** Teardown operations that all succeed take down what they vouch for and touch nothing else,
      except that clearing the proxy may already have worked. */
  lemma {:induction false} TakingReplays(w: World, run: seq<Done>)
    requires TakesOnly(Ops(run)) && Clean(run) && Replay(w, run).Some?
    ensures Replay(w, run).value <= w - Ensured(Ops(run)) <= Replay(w, run).value + {Proxy}
    ensures ProxyClear !in Ops(run) ==> Replay(w, run).value == w - Ensured(Ops(run))
  {
    if run != [] {
      var n, ops := |run| - 1, Ops(run);
      var init := run[..n];
      assert Ops(init) == ops[..n];
      assert ops[n] == run[n].op && ops[n] in ops;
      TakingReplays(w, init);
      EnsuredSnoc(ops, n);
      assert ops[..n + 1] == ops;
      OneTakes(w, Replay(w, init).value, Ensured(ops[..n]), run[n].op, run[n].o);
    }
  }

  lemma TeardownExact(m: Mode, w: World, failed: bool, run: seq<Done>)
    requires Ops(run) == TeardownPlan(m) && failed == !Clean(run) && Replay(w, run).Some?
    ensures !failed ==> Replay(w, run).value == w - Ensured(TeardownPlan(m))
  {
    TeardownCovers(m);
    assert TakesOnly(TeardownPlan(m));
    if !failed {
      TakingReplays(w, run);
    }
  }

  lemma TrailParts(m: Mode, k: nat, owed: bool, run: seq<Done>)
    requires FailedAt(m, k, owed, run)
    ensures |run| > k && Ops(run[..k]) == Forward(m)[..k] && run[k].op == Forward(m)[k]
    ensures Ops(run[k + 1..]) == Trail(m, k, owed)[k + 1..]
  {
    var t := Trail(m, k, owed);
    assert forall i :: 0 <= i < |run| ==> run[i].op == t[i];
    assert run[k].op == t[k];
  }

  /** The failed operation may have half-written the proxy, and its clear is left to a clean-up that is owed anyway. */
  predicate LeavesHalf(m: Mode, k: nat, owed: bool, o: Outcome) { m != Tun && k == 1 && owed && o.odd }

  /** All or nothing: a bring-up that fails at any stage and whose rollback succeeds leaves the host exactly as it
      found it if and only if nothing the rollback takes down was up before, and no proxy it may have half-written
      is left to somebody else. */
  lemma AllOrNothing(m: Mode, k: nat, owed: bool, w: World, run: seq<Done>)
    requires FailedAt(m, k, owed, run) && Replay(w, run).Some? && Clean(run[k + 1..])
    ensures (Replay(w, run) == Some(w)) ==
            (w !! Ensured(Ops(run[k + 1..])) && (LeavesHalf(m, k, owed, run[k].o) ==> Proxy in w))
  {
    TrailParts(m, k, owed, run);
    ReplaySplit(w, run, k);
    ForwardReplays(m, k, w, run[..k]);
    RollbackRestores(m, k, owed, w, Replay(w, run[..k]).value, run[k].o, run[k + 1..]);
  }

  /** So it does whenever nothing of its mode was up before and no clean-up was owed. */
  lemma AllOrNothingFresh(m: Mode, k: nat, w: World, run: seq<Done>)
    requires FailedAt(m, k, false, run) && Replay(w, run).Some? && Clean(run[k + 1..]) && w !! Kinds(m)
    ensures Replay(w, run) == Some(w)
  {
    AllOrNothing(m, k, false, w, run);
    TrailParts(m, k, false, run);
    RollbackCovers(m, k, false, run[k + 1..]);
  }

  lemma ReplaySplit(w: World, run: seq<Done>, k: nat)
    requires k < |run| && Replay(w, run).Some?
    ensures Replay(w, run[..k]).Some?
    ensures Replay(w, run) == Replay(Effect(Replay(w, run[..k]).value, run[k].op, run[k].o), run[k + 1..])
  {
    var up, down := run[..k], run[k + 1..];
    assert run == up + ([run[k]] + down);
    ReplayConcat(w, up, [run[k]] + down);
    ReplayConcat(Replay(w, up).value, [run[k]], down);
    assert [run[k]][..0] == [];
  }

  lemma RollbackRestores(m: Mode, k: nat, owed: bool, w: World, w1: World, o: Outcome, down: seq<Done>)
    requires k < |Forward(m)| && w1 == w + AddedBy(Forward(m)[..k]) && !o.ok
    requires Ops(down) == Trail(m, k, owed)[k + 1..] && Clean(down)
    requires Replay(Effect(w1, Forward(m)[k], o), down).Some?
    ensures (Replay(Effect(w1, Forward(m)[k], o), down) == Some(w)) ==
            (w !! Ensured(Ops(down)) && (LeavesHalf(m, k, owed, o) ==> Proxy in w))
  {
    var w2, e := Effect(w1, Forward(m)[k], o), Ensured(Ops(down));
    RollbackCovers(m, k, owed, down);
    TakingReplays(w2, down);
    assert Replay(w2, down).value == w2 - e;
    var half := if ThenClearsProxy(m, k) && o.odd then {Proxy} else {};
    assert w2 == w1 + half;
    assert w2 - e == (w - e) + (half - e);
    assert half - e == if LeavesHalf(m, k, owed, o) then {Proxy} else {};
    SameAgain(w, e, half - e);
  }

  lemma SameAgain(w: World, e: set<Res>, more: set<Res>)
    requires e !! more
    ensures ((w - e) + more == w) == (w !! e && more <= w)
  {
    if (w - e) + more == w {
      assert forall r :: r in e ==> r !in (w - e) + more;
    }
  }

  lemma RollbackCovers(m: Mode, k: nat, owed: bool, down: seq<Done>)
    requires k < |Forward(m)| && Ops(down) == Trail(m, k, owed)[k + 1..]
    ensures TakesOnly(Ops(down))
    ensures AddedBy(Forward(m)[..k]) <= Ensured(Ops(down)) <= Kinds(m)
    ensures if ThenClearsProxy(m, k) && !owed then Proxy in Ensured(Ops(down)) else ProxyClear !in Ops(down)
    ensures ThenClearsProxy(m, k) && owed ==> Proxy !in Ensured(Ops(down))
  {
    var tail := if ThenClearsProxy(m, k) && !owed then ProxyOff else [];
    assert Ops(down) == Compensation(m, k) + tail;
    assert TakesOnly(Compensation(m, k)) && ProxyClear !in Compensation(m, k);
    EnsuredConcat(Compensation(m, k), tail);
    CompensationCovers(m, k);
    EnsuredOfTwo(ProxyClear, ProxyIsSet);
    EnsuredOfTwo(StopChain, StopChain);
  }

  class Host {
    var world: World
    ghost var log: seq<Done>

    constructor (w: World)
      ensures world == w && log == []
    {
      world, log := w, [];
    }

    /** One call to the helper or to the OS proxy. It may fail at any time. */
    method Call(op: Op) returns (ok: bool)
      modifies this
      ensures exists odd :: var o := Outcome(ok, odd);
        log == old(log) + [Done(op, o)] && Possible(old(world), op, o) && world == Effect(old(world), op, o)
    {
      var odd: bool;
      ok, odd := *, *;
      if op == ProxyIsSet && Proxy in world { ok := false; }
      world := Effect(world, op, Outcome(ok, odd));
      log := log + [Done(op, Outcome(ok, odd))];
    }
  }

  /** `run` is what has been logged since the log was `log0` and the host was `w0`. */
  ghost predicate Since(h: Host, w0: World, log0: seq<Done>, run: seq<Done>)
    reads h
  {
    h.log == log0 + run && Replay(w0, run) == Some(h.world)
  }

  class Controller {
    const host: Host
    var cleanupPending: bool

    constructor (h: Host, owed: bool)
      ensures host == h && cleanupPending == owed
    {
      host, cleanupPending := h, owed;
    }

    /** A call whose failure the caller only remembers. */
    method Try(op: Op, failed: bool, ghost w0: World, ghost log0: seq<Done>, ghost run: seq<Done>)
      returns (failed': bool, ghost run': seq<Done>)
      requires Since(host, w0, log0, run) && failed == !Clean(run)
      modifies host
      ensures Since(host, w0, log0, run') && failed' == !Clean(run')
      ensures Ops(run') == Ops(run) + [op] && run <= run'
      ensures failed' <==> failed || !run'[|run|].o.ok
      ensures op == ProxyIsSet && !failed' ==> Proxy !in host.world
    {
      var ok := host.Call(op);
      failed' := failed || !ok;
      run' := run + [host.log[|host.log| - 1]];
      assert run'[..|run|] == run;
    }

    method ClearSysproxyBestEffort(failed0: bool, ghost w0: World, ghost log0: seq<Done>, ghost run0: seq<Done>)
      returns (failed: bool, ghost run: seq<Done>)
      requires Since(host, w0, log0, run0) && failed0 == !Clean(run0)
      modifies host
      ensures Since(host, w0, log0, run) && failed == !Clean(run)
      ensures Ops(run) == Ops(run0) + ProxyOff && run0 <= run
      ensures !failed ==> Proxy !in host.world
    {
      failed, run := Try(ProxyClear, failed0, w0, log0, run0);
      failed, run := Try(ProxyIsSet, failed, w0, log0, run);
    }

    /** Runs the whole plan whatever fails, and reports whether anything did. */
    method TearDown(mode: Mode) returns (failed: bool, ghost run: seq<Done>)
      modifies host
      ensures Since(host, old(host.world), old(host.log), run)
      ensures Ops(run) == TeardownPlan(mode) && failed == !Clean(run)
      ensures !failed ==> host.world == old(host.world) - Ensured(TeardownPlan(mode))
    {
      ghost var w0, log0 := host.world, host.log;
      failed, run := false, [];
      if mode == SysProxy {
        failed, run := ClearSysproxyBestEffort(failed, w0, log0, run);
      }
      if mode == Tun {
        failed, run := Try(DnsRestore, failed, w0, log0, run);
        failed, run := Try(RouteRestore, failed, w0, log0, run);
      }
      failed, run := Try(StopChain, failed, w0, log0, run);
      if mode == Tun {
        failed, run := Try(TunDestroy, failed, w0, log0, run);
      }
      TeardownExact(mode, w0, failed, run);
    }

    /** The rollback of a TUN bring-up, in the order the source gives for each stage. */
    method RollBackTun(k: nat, ghost w0: World, ghost log0: seq<Done>, ghost run0: seq<Done>)
      returns (ghost run: seq<Done>)
      requires k < |Forward(Tun)| && Since(host, w0, log0, run0) && !Clean(run0)
      modifies host
      ensures Since(host, w0, log0, run) && run0 <= run && Ops(run) == Ops(run0) + Compensation(Tun, k)
    {
      run := run0;
      var f := true;
      if k == 1 {
        f, run := Try(RouteRestore, f, w0, log0, run);
      } else if k == 2 {
        f, run := Try(TunDestroy, f, w0, log0, run);
        f, run := Try(RouteRestore, f, w0, log0, run);
      } else if k == 3 {
        f, run := Try(StopChain, f, w0, log0, run);
        f, run := Try(TunDestroy, f, w0, log0, run);
        f, run := Try(RouteRestore, f, w0, log0, run);
      } else if k == 4 {
        f, run := Try(StopChain, f, w0, log0, run);
        f, run := Try(RouteRestore, f, w0, log0, run);
        f, run := Try(TunDestroy, f, w0, log0, run);
      }
    }

    /** The rollback when the OS proxy could not be set: a proxy clean-up that is owed anyway is left to its owner. */
    method RollBackProxy(ghost w0: World, ghost log0: seq<Done>, ghost run0: seq<Done>) returns (ghost run: seq<Done>)
      requires Since(host, w0, log0, run0) && !Clean(run0)
      modifies host
      ensures Since(host, w0, log0, run) && run0 <= run
      ensures Ops(run) == Ops(run0) + [StopChain] + if !cleanupPending then ProxyOff else []
    {
      var f;
      f, run := Try(StopChain, true, w0, log0, run0);
      if !cleanupPending {
        f, run := ClearSysproxyBestEffort(f, w0, log0, run);
      }
    }

    /** One stage of the bring-up, with its rollback. */
    method Stage(op: Op, mode: Mode, k: nat, ghost w0: World, ghost log0: seq<Done>, ghost run0: seq<Done>)
      returns (bad: bool, ghost run: seq<Done>)
      requires k < |Forward(mode)| && op == Forward(mode)[k]
      requires Since(host, w0, log0, run0) && Clean(run0) && Ops(run0) == Forward(mode)[..k]
      modifies host
      ensures Since(host, w0, log0, run)
      ensures !bad ==> Clean(run) && Ops(run) == Forward(mode)[..k + 1]
      ensures bad ==> FailedAt(mode, k, cleanupPending, run)
    {
      bad, run := Try(op, false, w0, log0, run0);
      assert Forward(mode)[..k + 1] == Forward(mode)[..k] + [op];
      if bad {
        ghost var tried := run;
        if mode == Tun {
          run := RollBackTun(k, w0, log0, run);
        } else if k == 1 {
          run := RollBackProxy(w0, log0, run);
        }
        assert run[..k] == run0 && run[k] == tried[k];
      }
    }

    /** `loads` says whether settings and configs could be read. On failure `k` is the stage that failed. */
    method BringUp(mode: Mode, loads: bool) returns (ok: bool, ghost k: nat, ghost run: seq<Done>)
      modifies host
      ensures Since(host, old(host.world), old(host.log), run)
      ensures ok ==> loads && Ops(run) == Forward(mode) && Clean(run)
      ensures !loads ==> !ok && run == []
      ensures loads && !ok ==> FailedAt(mode, k, cleanupPending, run)
    {
      ghost var w0, log0 := host.world, host.log;
      ok, k, run := false, 0, [];
      if !loads { return; }
      var bad;
      if mode == Tun {
        bad, run := Stage(RouteSnapshot, mode, 0, w0, log0, run);
        if bad { return; }
        bad, run := Stage(TunCreate, mode, 1, w0, log0, run);
        k := 1;
        if bad { return; }
        k := 2;
      }
      bad, run := Stage(StartChain, mode, if mode == Tun then 2 else 0, w0, log0, run);
      if bad { return; }
      if mode == Tun {
        bad, run := Stage(RouteAdd, mode, 3, w0, log0, run);
        k := 3;
        if bad { return; }
        bad, run := Stage(DnsSet, mode, 4, w0, log0, run);
        k := 4;
      } else {
        bad, run := Stage(ProxySet, mode, 1, w0, log0, run);
        k := 1;
      }
      ok := !bad;
    }
  }
}

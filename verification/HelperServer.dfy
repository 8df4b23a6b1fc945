/** The helper's handlers on its mutable state, each proved against the functions of HelperSession. */
module HelperServer {
  import opened Base
  import opened HelperSession

  /** The active session's record, whose fields are cleared one by one. */
  class ChainState {
    const sessionID: nat
    var stopping: bool
    var singbox: bool
    var xray: bool
    var dnsPrior: bool
    var nrpt: bool
    var peerRoute: bool
    var snapshot: Option<set<Route>>
    var xrayAPI: bool

    constructor (id: nat)
      ensures sessionID == id && !stopping && Held() == {} && snapshot.None? && !xrayAPI
    {
      sessionID := id;
      stopping, singbox, xray, dnsPrior, nrpt, peerRoute, snapshot, xrayAPI := false, false, false, false, false, false, None, false;
    }

    function Has(k: Kind): bool reads this {
      match k
      case SingboxProc => singbox
      case XrayProc => xray
      case DnsOverride => dnsPrior
      case NrptRule => nrpt
      case PeerRoute => peerRoute
    }

    function Held(): set<Kind> reads this { set k: Kind | Has(k) }

    function Value(): Session reads this { Session(stopping, Held(), snapshot, xrayAPI) }

    /** Forgets resource `k`. */
    method Forget(k: Kind)
      modifies this
      ensures Held() == old(Held()) - {k}
      ensures stopping == old(stopping) && snapshot == old(snapshot) && xrayAPI == old(xrayAPI)
    {
      match k
      case SingboxProc => singbox := false;
      case XrayProc => xray := false;
      case DnsOverride => dnsPrior := false;
      case NrptRule => nrpt := false;
      case PeerRoute => peerRoute := false;
    }
  }

  lemma EveryKind(held: set<Kind>, fails: set<Kind>, all: set<Kind>)
    requires all == {} + {XrayProc} + {SingboxProc} + {DnsOverride} + {NrptRule} + {PeerRoute}
    ensures held - (all - fails) == held * fails
    ensures held * all - fails == held - fails
    ensures held * all * fails == held * fails
  {
    forall k | k in held ensures k in all {
      match k
      case SingboxProc =>
      case XrayProc =>
      case DnsOverride =>
      case NrptRule =>
      case PeerRoute =>
    }
  }

  lemma RolledBack(id: nat, held: set<Kind>, undoFails: set<Kind>, before: set<(nat, Kind)>, after: set<(nat, Kind)>)
    requires forall e :: e in before ==> e.0 < id
    requires after == before + Label(id, held)
                      - Label(id, held * {XrayProc} - undoFails) - Label(id, held * {SingboxProc} - undoFails)
                      - Label(id, held * {NrptRule} - undoFails) - Label(id, held * {DnsOverride} - undoFails)
                      - Label(id, held * {PeerRoute} - undoFails)
    ensures after == before + Label(id, held * undoFails)
  {
    forall e | e in before + Label(id, held) ensures e in after <==> e in before + Label(id, held * undoFails) {
      if e !in before {
        match e.1
        case SingboxProc =>
        case XrayProc =>
        case DnsOverride =>
        case NrptRule =>
        case PeerRoute =>
      }
    }
  }

  class Helper {
    var active: ChainState?
    var host: Host
    var nextID: nat

    constructor (h: Host)
      ensures active == null && host == h && nextID == 0
    {
      active, host, nextID := null, h, 0;
    }

    // -------------------------------------------------------------- teardown

    /** Where a pass over a session that began with `held` on `up` stands once the kinds in `done` are dealt with. */
    ghost predicate Undone(s: ChainState, p: Pass, held: set<Kind>, h: Host, done: set<Kind>, errs: bool)
      reads s, this
    {
      && s.Held() == held - (done - p.fails)
      && host == h.(up := h.up - Label(s.sessionID, held * done - p.fails))
      && (errs <==> held * done * p.fails != {})
    }

    /** Undoes one resource if the session still has it; on failure the record keeps it for the next pass. */
    method UndoOne(s: ChainState, k: Kind, p: Pass, errs: bool, ghost held: set<Kind>, ghost h: Host, ghost done: set<Kind>)
      returns (errs': bool)
      requires Undone(s, p, held, h, done, errs) && k !in done
      modifies s, this`host
      ensures Undone(s, p, held, h, done + {k}, errs')
      ensures s.stopping == old(s.stopping) && s.snapshot == old(s.snapshot) && s.xrayAPI == old(s.xrayAPI)
    {
      errs' := errs;
      assert s.Has(k) <==> k in s.Held();
      if s.Has(k) {
        if k in p.fails {
          errs' := true;
          assert k in held * (done + {k}) * p.fails;
          assert held * (done + {k}) - p.fails == held * done - p.fails;
        } else {
          s.Forget(k);
          host := host.(up := host.up - {(s.sessionID, k)});
          assert held * (done + {k}) - p.fails == (held * done - p.fails) + {k};
        }
      } else {
        assert held * (done + {k}) == held * done;
      }
      if k in p.fails || !(k in held) {
        assert held - (done + {k} - p.fails) == held - (done - p.fails);
      }
    }

    /** Both cores, then DNS, the NRPT rule and the peer route, in the source's order. */
    method UndoResources(s: ChainState, p: Pass) returns (errs: bool)
      modifies s, this`host
      ensures s.Held() == old(s.Held()) * p.fails
      ensures host == old(host).(up := old(host.up) - Label(s.sessionID, old(s.Held()) - p.fails))
      ensures errs <==> old(s.Held()) * p.fails != {}
      ensures s.stopping == old(s.stopping) && s.snapshot == old(s.snapshot) && s.xrayAPI == old(s.xrayAPI)
    {
      ghost var held, h := s.Held(), host;
      assert held * {} - p.fails == {} && Label(s.sessionID, {}) == {};
      errs := UndoOne(s, XrayProc, p, false, held, h, {});
      errs := UndoOne(s, SingboxProc, p, errs, held, h, {} + {XrayProc});
      errs := UndoOne(s, DnsOverride, p, errs, held, h, {} + {XrayProc} + {SingboxProc});
      errs := UndoOne(s, NrptRule, p, errs, held, h, {} + {XrayProc} + {SingboxProc} + {DnsOverride});
      errs := UndoOne(s, PeerRoute, p, errs, held, h, {} + {XrayProc} + {SingboxProc} + {DnsOverride} + {NrptRule});
      EveryKind(held, p.fails, {} + {XrayProc} + {SingboxProc} + {DnsOverride} + {NrptRule} + {PeerRoute});
    }

    /** Puts back the routes that have gone missing since the snapshot; the snapshot is forgotten only if all are back. */
    method RestoreRoutes(s: ChainState, p: Pass, errs: bool) returns (errs': bool)
      modifies s, this`host
      ensures s.Held() == old(s.Held()) && s.stopping == old(s.stopping) && s.xrayAPI == old(s.xrayAPI)
      ensures host == old(host).(routes := RestoredRoutes(old(s.Value()), old(host), p))
      ensures s.snapshot == if RoutesFail(old(s.Value()), old(host), p) then old(s.snapshot) else None
      ensures errs' <==> errs || RoutesFail(old(s.Value()), old(host), p)
    {
      errs' := errs;
      if s.snapshot.Some? {
        if p.readFails {
          errs' := true;
        } else {
          var have := host.routes;
          var want := s.snapshot.value;
          var todo, restored := want, true;
          while todo != {}
            invariant todo <= want && s.Held() == old(s.Held()) && s.stopping == old(s.stopping)
            invariant s.snapshot == old(s.snapshot) && s.xrayAPI == old(s.xrayAPI)
            invariant host == old(host).(routes := have + (want - todo - p.addFails))
            invariant restored <==> (want - todo - have) * p.addFails == {}
            invariant errs' <==> errs || !restored
            decreases todo
          {
            var r :| r in todo;
            if r !in have {
              if r in p.addFails {
                errs', restored := true, false;
                assert r in (want - (todo - {r}) - have) * p.addFails;
              } else {
                host := host.(routes := host.routes + {r});
              }
            }
            assert want - (todo - {r}) == (want - todo) + {r};
            todo := todo - {r};
          }
          if restored {
            s.snapshot := None;
          }
        }
      }
    }

    /** One best-effort teardown pass over the active session, run with `chainMu` held. */
    method StopActiveChainLocked(p: Pass) returns (errs: bool)
      requires active != null
      modifies this`active, this`host, active
      ensures old(active).Value() == PassSession(old(active.Value()), old(host), p)
      ensures host == PassHost(old(active.Value()), old(active).sessionID, old(host), p)
      ensures errs <==> PassErrors(old(active.Value()), old(host), p)
      ensures active == if errs then old(active) else null
    {
      var s := active;
      ghost var held := s.Held();
      s.stopping := true;
      assert s.Held() == held;
      errs := UndoResources(s, p);
      errs := RestoreRoutes(s, p, errs);
      if s.xrayAPI {
        if p.closeFails { errs := true; }
        s.xrayAPI := false;
        assert s.Held() == held * p.fails;
      }
      if !errs {
        if p.clearFails { errs := true; } else { host := host.(journal := false); }
      }
      if !errs {
        active := null;
      }
    }

    /** What the RPC handler and the service's shutdown both run. `wanted` is the session id the caller named, if any. */
    method StopChain(wanted: Option<nat>, p: Pass) returns (mismatch: bool, errs: bool)
      modifies this`active, this`host, active
      ensures mismatch <==> old(active) != null && wanted.Some? && wanted.value != old(active).sessionID
      ensures old(active) == null || mismatch ==> !errs && active == old(active) && host == old(host)
      ensures mismatch ==> old(active).Value() == old(active.Value())
      ensures old(active) != null && !mismatch ==>
                && old(active).Value() == PassSession(old(active.Value()), old(host), p)
                && host == PassHost(old(active.Value()), old(active).sessionID, old(host), p)
                && (errs <==> PassErrors(old(active.Value()), old(host), p))
                && active == if errs then old(active) else null
    {
      mismatch, errs := false, false;
      if active != null {
        if wanted.Some? && wanted.value != active.sessionID {
          mismatch := true;
        } else {
          errs := StopActiveChainLocked(p);
        }
      }
    }

    // -------------------------------------------------------------- crash watcher

    /** The watcher's second locked section, after one of the cores has exited. */
    method WatchFires(sess: ChainState, p: Pass) returns (tore: bool)
      modifies this`active, this`host, active
      ensures tore <==> old(active) == sess && !old(sess.stopping)
      ensures !tore ==> active == old(active) && host == old(host) && sess.Value() == old(sess.Value())
      ensures tore ==> !(active == sess && !sess.stopping)
      ensures tore ==>
                && sess.Value() == PassSession(old(sess.Value()), old(host), p)
                && host == PassHost(old(sess.Value()), sess.sessionID, old(host), p)
                && active == if PassErrors(old(sess.Value()), old(host), p) then old(active) else null
    {
      if active != sess || sess.stopping {
        tore := false;
        return;
      }
      tore := true;
      var _ := StopActiveChainLocked(p);
    }

    // -------------------------------------------------------------- start

    /** Session ids are never reused, so nothing on the host carries an id that is still to come. */
    ghost predicate Valid()
      reads this
    {
      forall e :: e in host.up ==> e.0 < nextID
    }

    /** The start so far has put up exactly what the new record holds. */
    ghost predicate Building(s: ChainState, h: Host)
      reads s, this
    {
      host == h.(up := h.up + Label(s.sessionID, s.Held()))
    }

    method Acquire(s: ChainState, k: Kind, ghost h: Host)
      requires Building(s, h)
      modifies s, this`host
      ensures Building(s, h) && s.Held() == old(s.Held()) + {k}
      ensures s.stopping == old(s.stopping) && s.snapshot == old(s.snapshot) && s.xrayAPI == old(s.xrayAPI)
    {
      match k {
        case SingboxProc => s.singbox := true;
        case XrayProc => s.xray := true;
        case DnsOverride => s.dnsPrior := true;
        case NrptRule => s.nrpt := true;
        case PeerRoute => s.peerRoute := true;
      }
      assert s.Held() == old(s.Held()) + {k};
      host := host.(up := host.up + {(s.sessionID, k)});
    }

    method RollBackOne(s: ChainState, k: Kind, l: Luck)
      modifies this`host
      ensures host == old(host).(up := old(host.up) - Label(s.sessionID, (s.Held() * {k}) - l.undoFails))
    {
      if s.Has(k) && k !in l.undoFails {
        assert (s.Held() * {k}) - l.undoFails == {k} && Label(s.sessionID, {k}) == {(s.sessionID, k)};
        host := host.(up := host.up - {(s.sessionID, k)});
      } else {
        assert (s.Held() * {k}) - l.undoFails == {} && Label(s.sessionID, {}) == {};
      }
    }

    /** Reverses what was done, newest first; a failed reversal is only logged. */
    method RollBack(s: ChainState, l: Luck, ghost h: Host)
      requires Building(s, h) && forall e :: e in h.up ==> e.0 < s.sessionID
      modifies this`host
      ensures host == h.(up := h.up + Label(s.sessionID, s.Held() * l.undoFails))
    {
      RollBackOne(s, XrayProc, l);
      RollBackOne(s, SingboxProc, l);
      RollBackOne(s, NrptRule, l);
      RollBackOne(s, DnsOverride, l);
      RollBackOne(s, PeerRoute, l);
      RolledBack(s.sessionID, s.Held(), l.undoFails, h.up, host.up);
    }

    /** Everything up to the DNS override. On failure the rollback has already run. */
    method SetUpNetwork(s: ChainState, a: Args, l: Luck, ghost h: Host) returns (ok: bool)
      requires Building(s, h) && s.Held() == {} && Prepared(l) && s.snapshot.None?
      requires forall e :: e in h.up ==> e.0 < s.sessionID
      modifies s, this`host
      ensures ok <==> Dnsed(a, l)
      ensures ok ==> Building(s, h) && s.snapshot == (if a.tun then Some(h.routes) else None) && s.Held() == Network(a)
      ensures !ok ==> host == h.(up := h.up + Label(s.sessionID, AppliedSet(a, l) * l.undoFails))
      ensures s.stopping == old(s.stopping) && s.xrayAPI == old(s.xrayAPI)
    {
      ok := false;
      if a.tun {
        if RouteSnapshot in l.fails || Gateway in l.fails || Resolve in l.fails || PeerAdd in l.fails {
          RollBack(s, l, h);
          return;
        }
        s.snapshot := Some(host.routes);
        assert s.Held() == {};
        Acquire(s, PeerRoute, h);
      }
      if a.tun && a.dns {
        if DnsSnapshot in l.fails || DnsSet in l.fails {
          RollBack(s, l, h);
          return;
        }
        Acquire(s, DnsOverride, h);
      }
      ok := true;
    }

    /** The two cores, the best-effort NRPT rule and the undo journal. */
    method SpawnCores(s: ChainState, a: Args, l: Luck, ghost h: Host) returns (ok: bool)
      requires Building(s, h) && Dnsed(a, l) && s.Held() == Network(a)
      requires forall e :: e in h.up ==> e.0 < s.sessionID
      modifies s, this`host
      ensures ok <==> Complete(a, l)
      ensures ok ==> Building(s, h) && s.Held() == AppliedSet(a, l)
      ensures !ok ==> host == h.(up := h.up + Label(s.sessionID, AppliedSet(a, l) * l.undoFails))
      ensures s.stopping == old(s.stopping) && s.xrayAPI == old(s.xrayAPI) && s.snapshot == old(s.snapshot)
    {
      ok := false;
      if (a.tun && AdapterSnapshot in l.fails) || FindSingbox in l.fails || RotateSingbox in l.fails || SpawnSingbox in l.fails {
        RollBack(s, l, h);
        return;
      }
      Acquire(s, SingboxProc, h);
      if (a.tun && Discover in l.fails) || FindXray in l.fails || RotateXray in l.fails || SpawnXray in l.fails {
        RollBack(s, l, h);
        return;
      }
      Acquire(s, XrayProc, h);
      if a.tun && l.nrpt {
        Acquire(s, NrptRule, h);
      }
      if UndoSave in l.fails {
        RollBack(s, l, h);
        return;
      }
      ok := true;
    }

    /** The start handler. Refused when the request is, and while any session is recorded, including one whose
        teardown is incomplete. */
    method StartChain(q: Request, l: Luck) returns (started: bool)
      requires Valid()
      modifies this
      ensures Valid()
      ensures started <==> ArgsOf(q).Some? && old(active) == null && Complete(ArgsOf(q).value, l)
      ensures ArgsOf(q).None? || old(active) != null ==> active == old(active) && host == old(host) && nextID == old(nextID)
      ensures ArgsOf(q).Some? && old(active) == null ==>
                host == StartedHost(old(host), old(nextID), ArgsOf(q).value, l) && nextID == old(nextID) + 1
      ensures old(active) == null && !started ==> active == null
      ensures started ==> active != null && fresh(active) && active.sessionID == old(nextID)
                          && active.Value() == StartedSession(old(host), ArgsOf(q).value, l)
    {
      started := false;
      if q.host == "" || q.port == 0 { return; }
      var sysproxyMode := false;
      if q.mode == "" || q.mode == "tun" {
        if q.tunName == "" { return; }
      } else if q.mode == "sysproxy" {
        sysproxyMode := true;
      } else {
        return;
      }
      var a := Args(!sysproxyMode, q.dnsAlias != "" && q.dnsServers != []);
      assert ArgsOf(q) == Some(a);
      if active != null { return; }
      started := StartLocked(a, l);
    }

    method StartLocked(a: Args, l: Luck) returns (started: bool)
      requires Valid() && active == null
      modifies this
      ensures Valid() && (started <==> Complete(a, l))
      ensures host == StartedHost(old(host), old(nextID), a, l) && nextID == old(nextID) + 1
      ensures !started ==> active == null
      ensures started ==> active != null && fresh(active) && active.sessionID == old(nextID)
                          && active.Value() == StartedSession(old(host), a, l)
    {
      ghost var h := host;
      var s := new ChainState(nextID);
      nextID := nextID + 1;
      started := RunStages(s, a, l, h);
      if started {
        active := s;
        host := host.(journal := true);
      }
    }

    method RunStages(s: ChainState, a: Args, l: Luck, ghost h: Host) returns (ok: bool)
      requires host == h && s.Value() == Session(false, {}, None, false) && forall e :: e in h.up ==> e.0 < s.sessionID
      modifies s, this`host
      ensures ok <==> Complete(a, l)
      ensures ok ==> Building(s, h) && s.Value() == StartedSession(h, a, l)
      ensures !ok ==> host == h.(up := h.up + Label(s.sessionID, AppliedSet(a, l) * l.undoFails))
    {
      assert Label(s.sessionID, {}) == {};
      if EnsureClean in l.fails || WriteSingbox in l.fails || WriteXray in l.fails {
        RollBack(s, l, h);
        return false;
      }
      ok := SetUpNetwork(s, a, l, h);
      if ok {
        ok := SpawnCores(s, a, l, h);
        if ok {
          s.xrayAPI := true;
          assert s.Held() == AppliedSet(a, l);
        }
      }
    }
  }
}

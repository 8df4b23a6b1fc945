/**
 The privileged helper's chain session: a start that rolls back stage by stage,
 and a best-effort teardown that can be repeated and forgets each resource only
 once it has been undone. `chainMu` is held for the whole of each operation, so
 each is one atomic section here.
 */
module HelperSession {
  import opened Base

  /** What a session may hold on the host. */
  datatype Kind = SingboxProc | XrayProc | DnsOverride | NrptRule | PeerRoute

  type Route = nat

  /** `up` lists what is outstanding and for which session. */
  datatype Host = Host(up: set<(nat, Kind)>, routes: set<Route>, journal: bool)

  /** The record the helper keeps of a session. `snapshot` is None once the routes are back. */
  datatype Session = Session(stopping: bool, holds: set<Kind>, snapshot: Option<set<Route>>, api: bool)

  // ---------------------------------------------------------------- starting

  datatype Stage =
    | EnsureClean | WriteSingbox | WriteXray | RouteSnapshot | Gateway | Resolve | PeerAdd
    | DnsSnapshot | DnsSet | AdapterSnapshot | FindSingbox | RotateSingbox | SpawnSingbox
    | Discover | FindXray | RotateXray | SpawnXray | UndoSave

  datatype Args = Args(tun: bool, dns: bool)

  /** What the caller sends. */
  datatype Request = Request(host: string, port: int, mode: string, tunName: string, dnsAlias: string, dnsServers: seq<string>)

  /** The checks before the lock, and what is left to decide after them; nothing when the request is refused. */
  function ArgsOf(q: Request): Option<Args> {
    if q.host == "" || q.port == 0 then None
    else if q.mode == "sysproxy" then Some(Args(false, q.dnsAlias != "" && q.dnsServers != []))
    else if (q.mode == "" || q.mode == "tun") && q.tunName != "" then Some(Args(true, q.dnsAlias != "" && q.dnsServers != []))
    else None
  }

  /** A request is taken exactly when it names a host, a port and a known mode, with a device in TUN mode; DNS is set when
      both the adapter and the servers are given. */
  lemma RequestsTaken(q: Request)
    ensures ArgsOf(q).Some? ==
            (q.host != "" && q.port != 0 && (q.mode == "sysproxy" || (q.mode in {"", "tun"} && q.tunName != "")))
    ensures ArgsOf(q).Some? ==>
              ArgsOf(q).value.tun == (q.mode != "sysproxy") && ArgsOf(q).value.dns == (q.dnsAlias != "" && |q.dnsServers| > 0)
  {
    assert |"sysproxy"| == 8 && |"tun"| == 3;
  }

  /** How a start goes: which stages fail, whether the best-effort NRPT rule is installed, and which
      rollback operations fail. */
  datatype Luck = Luck(fails: set<Stage>, nrpt: bool, undoFails: set<Kind>)

  predicate Applies(a: Args, st: Stage) {
    match st
    case RouteSnapshot => a.tun
    case Gateway => a.tun
    case Resolve => a.tun
    case PeerAdd => a.tun
    case AdapterSnapshot => a.tun
    case Discover => a.tun
    case DnsSnapshot => a.tun && a.dns
    case DnsSet => a.tun && a.dns
    case _ => true
  }

  // How far a start gets; each group of stages needs the one before it.

  predicate Prepared(l: Luck) { EnsureClean !in l.fails && WriteSingbox !in l.fails && WriteXray !in l.fails }

  predicate Routed(a: Args, l: Luck) {
    && Prepared(l)
    && (a.tun ==> RouteSnapshot !in l.fails && Gateway !in l.fails && Resolve !in l.fails && PeerAdd !in l.fails)
  }

  predicate Dnsed(a: Args, l: Luck) {
    Routed(a, l) && (a.tun && a.dns ==> DnsSnapshot !in l.fails && DnsSet !in l.fails)
  }

  predicate Singboxed(a: Args, l: Luck) {
    && Dnsed(a, l) && (a.tun ==> AdapterSnapshot !in l.fails)
    && FindSingbox !in l.fails && RotateSingbox !in l.fails && SpawnSingbox !in l.fails
  }

  predicate Xrayed(a: Args, l: Luck) {
    && Singboxed(a, l) && (a.tun ==> Discover !in l.fails)
    && FindXray !in l.fails && RotateXray !in l.fails && SpawnXray !in l.fails
  }

  predicate Complete(a: Args, l: Luck) { Xrayed(a, l) && UndoSave !in l.fails }

  /** A start completes exactly when no stage that applies to its mode fails. */
  lemma CompleteMeansNoFailure(a: Args, l: Luck)
    ensures Complete(a, l) <==> forall st: Stage :: Applies(a, st) ==> st !in l.fails
  {
    CoreStages(a, l);
    assert forall st: Stage :: Order(st) < 18;
  }

  /** What had been applied by the time the start ended, one way or the other. */
  function AppliedSet(a: Args, l: Luck): set<Kind> {
    (if a.tun && Routed(a, l) then {PeerRoute} else {})
    + (if a.tun && a.dns && Dnsed(a, l) then {DnsOverride} else {})
    + (if Singboxed(a, l) then {SingboxProc} else {})
    + (if Xrayed(a, l) then {XrayProc} else {})
    + (if a.tun && l.nrpt && Xrayed(a, l) then {NrptRule} else {})
  }

  /** The stages in the order the handler goes through them. */
  function Order(st: Stage): nat {
    match st
    case EnsureClean => 0
    case WriteSingbox => 1
    case WriteXray => 2
    case RouteSnapshot => 3
    case Gateway => 4
    case Resolve => 5
    case PeerAdd => 6
    case DnsSnapshot => 7
    case DnsSet => 8
    case AdapterSnapshot => 9
    case FindSingbox => 10
    case RotateSingbox => 11
    case SpawnSingbox => 12
    case Discover => 13
    case FindXray => 14
    case RotateXray => 15
    case SpawnXray => 16
    case UndoSave => 17
  }

  /** The stage after which a resource is in place; the name resolution rule is installed once both cores run. */
  function StageOf(k: Kind): Stage {
    match k
    case PeerRoute => PeerAdd
    case DnsOverride => DnsSet
    case SingboxProc => SpawnSingbox
    case XrayProc => SpawnXray
    case NrptRule => SpawnXray
  }

  /** Whether a start that gets that far puts the resource up: the cores always, the peer route in TUN mode, the DNS
      override when it is asked for too, and the name resolution rule when its installation works. */
  predicate Wanted(k: Kind, a: Args, l: Luck) {
    match k
    case PeerRoute => a.tun
    case DnsOverride => a.tun && a.dns
    case SingboxProc => true
    case XrayProc => true
    case NrptRule => a.tun && l.nrpt
  }

  /** No stage that applies fails among the first `n`. */
  predicate NoneFails(a: Args, l: Luck, n: nat) {
    forall st: Stage :: Applies(a, st) && Order(st) < n ==> st !in l.fails
  }

  lemma OrderIsStrict(st: Stage, other: Stage)
    requires Order(st) == Order(other)
    ensures st == other
  {}

  lemma OneMoreStage(a: Args, l: Luck, st: Stage)
    ensures NoneFails(a, l, Order(st) + 1) == (NoneFails(a, l, Order(st)) && (Applies(a, st) ==> st !in l.fails))
  {
    forall other: Stage | Order(other) == Order(st) ensures other == st {
      OrderIsStrict(st, other);
    }
  }

  lemma FirstStages(a: Args, l: Luck)
    ensures Prepared(l) == NoneFails(a, l, 3)
  {
    assert NoneFails(a, l, 0);
    OneMoreStage(a, l, EnsureClean);
    OneMoreStage(a, l, WriteSingbox);
    OneMoreStage(a, l, WriteXray);
  }

  lemma NetworkStages(a: Args, l: Luck)
    ensures Routed(a, l) == NoneFails(a, l, 7) && Dnsed(a, l) == NoneFails(a, l, 9)
  {
    FirstStages(a, l);
    OneMoreStage(a, l, RouteSnapshot);
    OneMoreStage(a, l, Gateway);
    OneMoreStage(a, l, Resolve);
    OneMoreStage(a, l, PeerAdd);
    OneMoreStage(a, l, DnsSnapshot);
    OneMoreStage(a, l, DnsSet);
  }

  lemma CoreStages(a: Args, l: Luck)
    ensures Singboxed(a, l) == NoneFails(a, l, 13) && Xrayed(a, l) == NoneFails(a, l, 17) && Complete(a, l) == NoneFails(a, l, 18)
  {
    NetworkStages(a, l);
    OneMoreStage(a, l, AdapterSnapshot);
    OneMoreStage(a, l, FindSingbox);
    OneMoreStage(a, l, RotateSingbox);
    OneMoreStage(a, l, SpawnSingbox);
    OneMoreStage(a, l, Discover);
    OneMoreStage(a, l, FindXray);
    OneMoreStage(a, l, RotateXray);
    OneMoreStage(a, l, SpawnXray);
    OneMoreStage(a, l, UndoSave);
  }

  /** A start has put up exactly the resources it wants whose stage was reached and passed without a failure. */
  lemma AppliedExactly(a: Args, l: Luck, k: Kind)
    ensures (k in AppliedSet(a, l)) == (Wanted(k, a, l) && NoneFails(a, l, Order(StageOf(k)) + 1))
  {
    NetworkStages(a, l);
    CoreStages(a, l);
  }

  /** The record of a start that succeeded from host `h`: active, holding exactly what it wants, with the routes as they
      were before in TUN mode. */
  lemma SuccessfulStartRecords(h: Host, id: nat, a: Args, l: Luck)
    requires Complete(a, l)
    ensures var v := StartedSession(h, a, l);
            && !v.stopping && v.api && v.snapshot == (if a.tun then Some(h.routes) else None)
            && (forall k: Kind :: k in v.holds <==> Wanted(k, a, l))
    ensures var t := StartedHost(h, id, a, l);
            && t.routes == h.routes && t.journal
            && (forall e :: e in t.up <==> e in h.up || (e.0 == id && Wanted(e.1, a, l)))
  {}

  /** What a start applies to the network before it spawns anything. */
  function Network(a: Args): set<Kind> {
    (if a.tun then {PeerRoute} else {}) + (if a.tun && a.dns then {DnsOverride} else {})
  }

  function Label(id: nat, ks: set<Kind>): set<(nat, Kind)> { set k | k in ks :: (id, k) }

  /** The host after a start: everything applied on success; on failure only what the rollback could not undo. */
  function StartedHost(h: Host, id: nat, a: Args, l: Luck): Host {
    if Complete(a, l)
    then h.(up := h.up + Label(id, AppliedSet(a, l)), journal := true)
    else h.(up := h.up + Label(id, AppliedSet(a, l) * l.undoFails))
  }

  function StartedSession(h: Host, a: Args, l: Luck): Session {
    Session(false, AppliedSet(a, l), if a.tun then Some(h.routes) else None, true)
  }

  // ---------------------------------------------------------------- stopping

  /** How one teardown pass goes. */
  datatype Pass = Pass(fails: set<Kind>, readFails: bool, addFails: set<Route>, closeFails: bool, clearFails: bool)

  predicate RoutesFail(s: Session, h: Host, p: Pass) {
    s.snapshot.Some? && (p.readFails || (s.snapshot.value - h.routes) * p.addFails != {})
  }

  predicate PassErrors(s: Session, h: Host, p: Pass) {
    s.holds * p.fails != {} || RoutesFail(s, h, p) || (s.api && p.closeFails) || p.clearFails
  }

  function RestoredRoutes(s: Session, h: Host, p: Pass): set<Route> {
    if s.snapshot.None? || p.readFails then h.routes else h.routes + (s.snapshot.value - p.addFails)
  }

  function PassSession(s: Session, h: Host, p: Pass): Session {
    Session(true, s.holds * p.fails, if RoutesFail(s, h, p) then s.snapshot else None, false)
  }

  function PassHost(s: Session, id: nat, h: Host, p: Pass): Host {
    Host(h.up - Label(id, s.holds - p.fails), RestoredRoutes(s, h, p), if PassErrors(s, h, p) then h.journal else false)
  }

  /** One pass, field by field: what it undoes, what it restores, and what stays on record. */
  lemma PassDoes(v: Session, id: nat, h: Host, p: Pass)
    ensures var u, t := PassSession(v, h, p), PassHost(v, id, h, p);
            && u.stopping && !u.api && (forall k: Kind :: k in u.holds <==> k in v.holds && k in p.fails)
            && (forall e :: e in t.up <==> e in h.up && !(e.0 == id && e.1 in v.holds && e.1 !in p.fails))
            && h.routes <= t.routes
    ensures PassErrors(v, h, p) == !CleanPass(v, h, p)
    ensures PassHost(v, id, h, p).journal == (h.journal && !CleanPass(v, h, p))
  {
    if v.snapshot.Some? {
      var missing := v.snapshot.value - h.routes;
      assert (missing * p.addFails != {}) == exists r :: r in missing && r in p.addFails by {
        if r :| r in missing && r in p.addFails {
          assert r in missing * p.addFails;
        }
      }
    }
    if k :| k in v.holds && k in p.fails {
      assert k in v.holds * p.fails;
    }
  }

  /** Nothing went wrong in a pass: every held resource was undone, the routes were read and the missing ones re-added,
      the client of the core was closed and the journal removed. */
  ghost predicate CleanPass(v: Session, h: Host, p: Pass) {
    && (forall k :: k in v.holds ==> k !in p.fails)
    && (v.snapshot.Some? ==> !p.readFails && forall r :: r in v.snapshot.value && r !in h.routes ==> r !in p.addFails)
    && (v.api ==> !p.closeFails) && !p.clearFails
  }
}

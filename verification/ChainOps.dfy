/**
 The operations the connection controller performs on the helper and on the OS
 proxy, what each does to the host, and the fixed sequences in which `bringUp`
 and `tearDown` issue them.
 */
module ChainOps {

  /** `Other` is any mode string that is neither "tun" nor "sysproxy"; nothing validates it. */
  datatype Mode = Tun | SysProxy | Other

  /** What an attempt can leave behind on the host. */
  datatype Res = Snapshot | TunDev | Chain | Routes | Dns | Proxy

  /** The things that are up right now. */
  type World = set<Res>

  datatype Op =
    | RouteSnapshot | TunCreate | StartChain | RouteAdd | DnsSet | ProxySet
    | DnsRestore | RouteRestore | StopChain | TunDestroy | ProxyClear | ProxyIsSet

  /** How one operation came out. `odd` covers the two proxy calls that are not all-or-nothing:
      a failed Set may have half-written the registry, and Clear may swallow a failed write. */
  datatype Outcome = Outcome(ok: bool, odd: bool)

  function Adds(op: Op): set<Res> {
    match op
    case RouteSnapshot => {Snapshot}
    case TunCreate => {TunDev}
    case StartChain => {Chain}
    case RouteAdd => {Routes}
    case DnsSet => {Dns}
    case ProxySet => {Proxy}
    case _ => {}
  }

  /** What is certainly down once `op` reports success. `ProxyClear` vouches for nothing,
      which is why every caller asks `ProxyIsSet` straight after it. */
  function Ensures(op: Op): set<Res> {
    match op
    case DnsRestore => {Dns}
    case RouteRestore => {Routes, Snapshot}
    case StopChain => {Chain}
    case TunDestroy => {TunDev}
    case ProxyIsSet => {Proxy}
    case _ => {}
  }

  /** `IsSet` can only come back clean when the proxy really is off. */
  predicate Possible(w: World, op: Op, o: Outcome) {
    op == ProxyIsSet && o.ok ==> Proxy !in w
  }

  function Effect(w: World, op: Op, o: Outcome): World {
    match op
    case ProxySet => if o.ok || o.odd then w + {Proxy} else w
    case ProxyClear => if o.odd then w else w - {Proxy}
    case _ => if o.ok then w + Adds(op) - Ensures(op) else w
  }

  function Forward(m: Mode): seq<Op> {
    if m == Tun then [RouteSnapshot, TunCreate, StartChain, RouteAdd, DnsSet] else [StartChain, ProxySet]
  }

  /** The rollback `bringUp` runs when forward operation `k` fails. */
  function Compensation(m: Mode, k: nat): seq<Op> {
    if m == Tun then
      match k
      case 0 => []
      case 1 => [RouteRestore]
      case 2 => [TunDestroy, RouteRestore]
      case 3 => [StopChain, TunDestroy, RouteRestore]
      case _ => [StopChain, RouteRestore, TunDestroy]
    else if k == 0 then [] else [StopChain]
  }

  /** A failed ProxySet is followed by a proxy clean-up too, unless one is already owed. */
  predicate ThenClearsProxy(m: Mode, k: nat) {
    m != Tun && k > 0
  }

  const ProxyOff: seq<Op> := [ProxyClear, ProxyIsSet]

  function TeardownPlan(m: Mode): seq<Op> {
    match m
    case Tun => [DnsRestore, RouteRestore, StopChain, TunDestroy]
    case SysProxy => [ProxyClear, ProxyIsSet, StopChain]
    case Other => [StopChain]
  }

  /** `Stop` also pays an owed proxy clean-up left by an earlier attempt in another mode. */
  function StopPlan(m: Mode, pending: bool, previous: Mode): seq<Op> {
    TeardownPlan(m) + if pending && previous == SysProxy && m != SysProxy then ProxyOff else []
  }

  function Ensured(ops: seq<Op>): set<Res> {
    if ops == [] then {} else Ensures(ops[0]) + Ensured(ops[1..])
  }

  /** Everything a successful attempt in mode `m` holds. */
  function Kinds(m: Mode): set<Res> {
    if m == Tun then {Snapshot, TunDev, Chain, Routes, Dns} else {Chain, Proxy}
  }

  function AddedBy(ops: seq<Op>): set<Res> {
    if ops == [] then {} else AddedBy(ops[..|ops| - 1]) + Adds(ops[|ops| - 1])
  }

  /** Operations that only ever take things down. */
  predicate TakesOnly(ops: seq<Op>) { forall i :: 0 <= i < |ops| ==> Adds(ops[i]) == {} }

  lemma TeardownCovers(m: Mode)
    ensures m != Other ==> Ensured(TeardownPlan(m)) == Kinds(m)
    ensures Ensured(TeardownPlan(Other)) == {Chain}
  {
    assert TeardownPlan(Tun)[1..] == [RouteRestore, StopChain, TunDestroy];
    assert [RouteRestore, StopChain, TunDestroy][1..] == [StopChain, TunDestroy];
    assert [StopChain, TunDestroy][1..] == [TunDestroy];
    assert TeardownPlan(SysProxy)[1..] == [ProxyIsSet, StopChain];
    assert [ProxyIsSet, StopChain][1..] == [StopChain];
  }

  lemma {:induction false} EnsuredConcat(a: seq<Op>, b: seq<Op>)
    ensures Ensured(a + b) == Ensured(a) + Ensured(b)
  {
    if a == [] {
      assert a + b == b;
    } else {
      EnsuredConcat(a[1..], b);
      assert (a + b)[1..] == a[1..] + b;
    }
  }

  lemma EnsuredSnoc(ops: seq<Op>, n: nat)
    requires n < |ops|
    ensures Ensured(ops[..n + 1]) == Ensured(ops[..n]) + Ensures(ops[n])
  {
    EnsuredConcat(ops[..n], [ops[n]]);
    assert ops[..n + 1] == ops[..n] + [ops[n]];
    assert [ops[n]][1..] == [];
  }

  lemma EnsuredOfTwo(a: Op, b: Op)
    ensures Ensured([a]) == Ensures(a)
    ensures Ensured([a, b]) == Ensures(a) + Ensures(b)
  {
    assert [a][1..] == [] && [a, b][1..] == [b] && [b][1..] == [];
  }

  lemma EnsuredOfThree(a: Op, b: Op, c: Op)
    ensures Ensured([a, b, c]) == Ensures(a) + Ensures(b) + Ensures(c)
  {
    assert [a, b, c][1..] == [b, c];
    EnsuredOfTwo(b, c);
  }

  lemma {:induction false} AddedUpTo(m: Mode, k: nat)
    requires k <= |Forward(m)|
    ensures AddedBy(Forward(m)[..k]) <= Kinds(m)
    ensures 0 < k ==> AddedBy(Forward(m)[..k]) == AddedBy(Forward(m)[..k - 1]) + Adds(Forward(m)[k - 1])
  {
    if k > 0 {
      AddedUpTo(m, k - 1);
      var f := Forward(m)[..k];
      assert f[..|f| - 1] == Forward(m)[..k - 1];
    }
  }

  lemma CompensationEnsures(k: nat)
    requires k < 5
    ensures Ensured(Compensation(Tun, k)) ==
            match k case 0 => {} case 1 => {Routes, Snapshot} case 2 => {TunDev, Routes, Snapshot} case _ => {Chain, TunDev, Routes, Snapshot}
  {
    EnsuredOfTwo(RouteRestore, RouteRestore);
    EnsuredOfTwo(TunDestroy, RouteRestore);
    EnsuredOfThree(StopChain, TunDestroy, RouteRestore);
    EnsuredOfThree(StopChain, RouteRestore, TunDestroy);
  }

  lemma AddedAre(k: nat)
    requires k < 5
    ensures AddedBy(Forward(Tun)[..k]) ==
            match k case 0 => {} case 1 => {Snapshot} case 2 => {Snapshot, TunDev} case 3 => {Snapshot, TunDev, Chain}
                    case _ => {Snapshot, TunDev, Chain, Routes}
  {
    if k > 0 {
      AddedAre(k - 1);
      AddedUpTo(Tun, k);
    }
  }

  /** Each rollback covers the stages that were reached, and nothing of another mode. */
  lemma CompensationCovers(m: Mode, k: nat)
    requires k < |Forward(m)|
    ensures AddedBy(Forward(m)[..k]) <= Ensured(Compensation(m, k)) <= Kinds(m)
  {
    if m == Tun {
      CompensationEnsures(k);
      AddedAre(k);
    } else {
      AddedUpTo(m, k);
      assert Forward(m)[..0] == [];
      EnsuredOfTwo(StopChain, StopChain);
    }
  }
}

/**
 The connection controller as a machine of atomic steps: one step per locked
 section, per helper call and per look at a context. `Start` and `Stop` are
 serialised by `opMu`, so there is one API program counter; every attempt has a
 worker of its own (bring-up, then the poller). A run is any sequence of labels,
 so every interleaving and every pattern of failures is some run.
 */
module ChainMachine {
  import opened Base
  import opened ChainOps

  type Server = nat

  /** The controller's fields guarded by `mu`. `cancel` names the attempt whose cancel function is stored. */
  datatype Ctl = Ctl(cancel: Option<nat>, current: Option<Server>, mode: Mode,
                     cleanupPending: bool, cleanupMode: Mode)

  /** Where a worker is. Everything before `Leaving` may still touch fields or issue operations. */
  datatype Pc =
    | Loads                                               // reads settings, builds the configs
    | Up(k: nat)                                          // forward operation k is next
    | Undo(todo: seq<Op>, thenProxy: bool)                // rolling back inside bringUp
    | Back(ok: bool)                                      // bringUp returned; "was I stolen?" is next
    | FailCancels | FailClears
    | WonReads | WonClears(todo: seq<Op>, failed: bool) | WonSettles | WonSaves
    | Polling
    | Polled(reply: bool, running: bool)
    | DropDecides(blocking: bool)
    | DropTears(from: nat, todo: seq<Op>, failed: bool)
    | Leaving                                             // one event left to publish

  datatype Worker = Worker(server: Server, mode: Mode, pc: Pc)

  /** What `Stop` copied under the lock before it let go of the fields. */
  datatype Job = Job(victim: Option<nat>, mode: Mode, pending: bool, previous: Mode)

  datatype Api =
    | Ready
    | StartWaits(server: Server, mode: Mode)
    | StopCancels(job: Job)
    | StopWaits(job: Job)
    | StopTears(job: Job, from: nat, todo: seq<Op>, failed: bool)
    | StopForgets(job: Job, from: nat)

  datatype Actor = Api | Attempt(a: nat)

  datatype Event =
    | Issued(who: Actor, op: Op, ok: bool)
    | StopReturned(job: Job, from: nat)                   // Stop returned nil; its operations began at `from`

  datatype State = State(ctl: Ctl, canceled: set<nat>, next: nat, workers: map<nat, Worker>,
                         api: Api, world: World, session: Option<(Server, Mode)>, trace: seq<Event>)

  datatype Label =
    | CallStart(found: Option<Server>, mode: Mode)        // `found` is what the server store answered
    | CallStop
    | ApiStep(o: Outcome)
    | Work(a: nat, o: Outcome)
    | CoresDie                                            // the helper's chain goes away on its own

  datatype Status = StatusIdle | StatusError | StatusConnected

  function StatusOf(c: Ctl): Status {
    if c.cleanupPending && c.cancel.None? then StatusError
    else if c.cancel.None? then StatusIdle
    else StatusConnected
  }

  // ---------------------------------------------------------------- locked sections

  function Launched(c: Ctl, a: nat, srv: Server, m: Mode): Ctl {
    c.(cancel := Some(a), current := Some(srv), mode := m)
  }

  function Taken(c: Ctl): Ctl { c.(cleanupPending := false, cancel := None, current := None) }

  function Owing(c: Ctl, m: Mode): Ctl { c.(cleanupPending := true, cleanupMode := m) }

  function Released(c: Ctl): Ctl { c.(cancel := None, current := None) }

  // ---------------------------------------------------------------- helper calls

  function Issue(s: State, who: Actor, op: Op, o: Outcome): State {
    s.(world := Effect(s.world, op, o), trace := s.trace + [Issued(who, op, o.ok)])
  }

  function Goto(s: State, a: nat, pc: Pc): State
    requires a in s.workers
  {
    s.(workers := s.workers[a := s.workers[a].(pc := pc)])
  }

  function Exit(s: State, a: nat): State { s.(workers := s.workers - {a}) }

  // ---------------------------------------------------------------- the API caller

  function Launch(s: State, srv: Server, m: Mode): State {
    s.(ctl := Launched(s.ctl, s.next, srv, m), next := s.next + 1,
       workers := s.workers[s.next := Worker(srv, m, Loads)], api := Ready)
  }

  function StartStep(s: State, found: Option<Server>, m: Mode): Option<State> {
    if !s.api.Ready? then None
    else if s.ctl.cancel.Some? || found.None? then Some(s)              // refused with an error
    else if s.ctl.cleanupPending then Some(s.(api := StartWaits(found.value, m)))
    else Some(Launch(s, found.value, m))
  }

  function StopStep(s: State): Option<State> {
    if !s.api.Ready? then None
    else
      var job := Job(s.ctl.cancel, s.ctl.mode, s.ctl.cleanupPending, s.ctl.cleanupMode);
      var t := s.(ctl := Taken(s.ctl));
      if job.victim.None? && !job.pending then Some(t) else Some(t.(api := StopCancels(job)))
  }

  function ApiContinue(s: State, o: Outcome): Option<State> {
    match s.api
    case Ready => None
    case StartWaits(srv, m) => if s.workers == map[] then Some(Launch(s, srv, m)) else None
    case StopCancels(job) =>
      Some(s.(canceled := s.canceled + (if job.victim.Some? then {job.victim.value} else {}), api := StopWaits(job)))
    case StopWaits(job) =>
      if s.workers == map[]
      then Some(s.(api := StopTears(job, |s.trace|, StopPlan(job.mode, job.pending, job.previous), false)))
      else None
    case StopTears(job, from, todo, failed) =>
      if todo != [] then
        if Possible(s.world, todo[0], o)
        then Some(Issue(s, Actor.Api, todo[0], o).(api := StopTears(job, from, todo[1..], failed || !o.ok)))
        else None
      else if failed then
        Some(s.(ctl := s.ctl.(cleanupPending := true,
                              cleanupMode := if job.pending then s.ctl.cleanupMode else job.mode),
                api := Ready))
      else
        Some(s.(ctl := s.ctl.(cleanupPending := false), api := StopForgets(job, from)))
    case StopForgets(job, from) =>
      Some(s.(session := if o.ok then None else s.session, api := Ready,
              trace := s.trace + [StopReturned(job, from)]))
  }

  // ---------------------------------------------------------------- one worker

  function UpStep(s: State, a: nat, k: nat, o: Outcome): Option<State>
    requires a in s.workers
  {
    var m := s.workers[a].mode;
    if k < |Forward(m)| then
      if !Possible(s.world, Forward(m)[k], o) then None
      else
        var t := Issue(s, Attempt(a), Forward(m)[k], o);
        Some(Goto(t, a, if o.ok then Up(k + 1) else Undo(Compensation(m, k), ThenClearsProxy(m, k))))
    else
      Some(Goto(s.(ctl := s.ctl.(mode := m)), a, Back(true)))
  }

  function UndoStep(s: State, a: nat, todo: seq<Op>, thenProxy: bool, o: Outcome): Option<State>
    requires a in s.workers
  {
    if todo != [] then
      if Possible(s.world, todo[0], o)
      then Some(Goto(Issue(s, Attempt(a), todo[0], o), a, Undo(todo[1..], thenProxy)))
      else None
    else if thenProxy && !s.ctl.cleanupPending then Some(Goto(s, a, Undo(ProxyOff, false)))
    else Some(Goto(s, a, Back(false)))
  }

  function WonStep(s: State, a: nat, o: Outcome): Option<State>
    requires a in s.workers
  {
    var w := s.workers[a];
    match w.pc
    case WonReads =>
      if s.ctl.cleanupPending && s.ctl.cleanupMode == SysProxy && w.mode != SysProxy
      then Some(Goto(s, a, WonClears(ProxyOff, false)))
      else Some(Goto(s, a, WonSettles))
    case WonClears(todo, failed) =>
      if todo != [] then
        if Possible(s.world, todo[0], o)
        then Some(Goto(Issue(s, Attempt(a), todo[0], o), a, WonClears(todo[1..], failed || !o.ok)))
        else None
      else Some(Goto(s, a, if failed then WonSaves else WonSettles))
    case WonSettles => Some(Goto(s.(ctl := s.ctl.(cleanupPending := false)), a, WonSaves))
    case WonSaves => Some(Goto(s.(session := if o.ok then Some((w.server, w.mode)) else s.session), a, Polling))
    case _ => None
  }

  /** The poller notices that the chain is gone and decides what to do about it. */
  function DropStep(s: State, a: nat, blocking: bool): Option<State>
    requires a in s.workers
  {
    if a in s.canceled || s.ctl.cancel.None? then Some(Exit(s, a))
    else if blocking then
      Some(Goto(s.(canceled := s.canceled + {s.ctl.cancel.value}, ctl := Owing(Released(s.ctl), s.ctl.mode)), a, Leaving))
    else
      Some(Goto(s.(ctl := s.ctl.(current := None)), a, DropTears(|s.trace|, TeardownPlan(s.ctl.mode), false)))
  }

  function DropTearStep(s: State, a: nat, from: nat, todo: seq<Op>, failed: bool, o: Outcome): Option<State>
    requires a in s.workers
  {
    if todo != [] then
      if Possible(s.world, todo[0], o)
      then Some(Goto(Issue(s, Attempt(a), todo[0], o), a, DropTears(from, todo[1..], failed || !o.ok)))
      else None
    else
      var c := if failed then Owing(s.ctl, s.workers[a].mode) else s.ctl;
      Some(Goto(s.(canceled := s.canceled + (if c.cancel.Some? then {c.cancel.value} else {}),
                   ctl := c.(cancel := None)), a, Leaving))
  }

  function WorkStep(s: State, a: nat, o: Outcome): Option<State> {
    if a !in s.workers then None
    else
      match s.workers[a].pc
      case Loads => Some(Goto(s, a, if o.ok then Up(0) else Back(false)))
      case Up(k) => UpStep(s, a, k, o)
      case Undo(todo, thenProxy) => UndoStep(s, a, todo, thenProxy, o)
      case Back(ok) =>
        if a in s.canceled then Some(Exit(s, a))
        else Some(Goto(s, a, if ok then WonReads else FailCancels))
      case FailCancels => Some(Goto(s.(canceled := s.canceled + {a}), a, FailClears))
      case FailClears => Some(Goto(s.(ctl := Released(s.ctl)), a, Leaving))
      case Polling =>
        if a in s.canceled && o.odd then Some(Exit(s, a))
        else Some(Goto(s, a, Polled(o.ok, Chain in s.world)))
      case Polled(reply, running) =>
        if a in s.canceled then Some(Exit(s, a))
        else if !reply || running then Some(Goto(s, a, Polling))
        else Some(Goto(s, a, DropDecides(o.ok)))                        // o.ok: kill switch on or unreadable
      case DropDecides(blocking) => DropStep(s, a, blocking)
      case DropTears(from, todo, failed) => DropTearStep(s, a, from, todo, failed, o)
      case Leaving => Some(Exit(s, a))
      case _ => WonStep(s, a, o)
  }

  // ---------------------------------------------------------------- runs

  function Step(s: State, l: Label): Option<State> {
    match l
    case CallStart(found, m) => StartStep(s, found, m)
    case CallStop => StopStep(s)
    case ApiStep(o) => ApiContinue(s, o)
    case Work(a, o) => WorkStep(s, a, o)
    case CoresDie => Some(s.(world := s.world - {Chain}))
  }

  /** The state a run ends in, or None if some label was not enabled. */
  function Exec(s: State, ls: seq<Label>): Option<State> {
    if ls == [] then Some(s)
    else
      var r := Exec(s, ls[..|ls| - 1]);
      if r.None? then None else Step(r.value, ls[|ls| - 1])
  }

  // ---------------------------------------------------------------- boot

  /** What the helper answered to the status call `Reconcile` makes. */
  datatype Reply = NoReply | Reply(running: bool, cleanupPending: bool)

  /** `Reconcile`, called once before the bridge serves requests. `found` is the recorded server if it
      still exists; `proxy` is how the boot-time proxy clean-up went. */
  function Boot(record: Option<(Server, Mode)>, found: bool, reply: Reply, proxy: Outcome, w: World): State {
    var idle := State(Ctl(None, None, Tun, false, Tun), {}, 0, map[], Ready, w, record, []);
    if record.None? then idle
    else
      var (srv, m) := record.value;
      if reply.Reply? && reply.cleanupPending then idle.(ctl := Ctl(None, None, m, true, m))
      else if !found then idle.(session := None)
      else if reply.NoReply? then idle.(ctl := idle.ctl.(current := Some(srv), mode := m))
      else if !reply.running then
        idle.(ctl := idle.ctl.(current := Some(srv), mode := m),
              world := if m == SysProxy then Effect(w, ProxyClear, proxy) else w)
      else
        idle.(ctl := Ctl(Some(0), Some(srv), m, false, Tun), next := 1,
              workers := map[0 := Worker(srv, m, Polling)])
  }

  ghost predicate Booted(s: State) {
    exists record, found, reply, proxy, w :: s == Boot(record, found, reply, proxy, w)
  }

  ghost predicate Reachable(s: State) {
    exists s0: State, ls: seq<Label> :: Booted(s0) && Exec(s0, ls) == Some(s)
  }
}

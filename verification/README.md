# Verified core of ITG Ray

ITG Ray is a desktop VPN client: a connection controller brings a chain of two proxy cores up and down through a
privileged helper, servers come from subscriptions and from the user, routing rules are compiled to a sing-box
route, and logs and releases are followed in the background. This project models five of its cores in Dafny and
proves what they are relied on for. `dafny verify dfyconfig.toml` checks all of it.

## What is modelled

**A. The connection controller** (`ChainOps`, `ChainMachine`, `ChainSafety`, `ChainStop`, `ChainLeaks`,
`ChainWitness`, `ChainProgress`, `ChainRecord`, `ChainCalls`). `ChainMachine` is a step relation: one program counter for the API caller, which
`opMu` serialises, one for each worker (the bring-up that turns into the poller), the controller's fields, the host
as the set of things that are up, and a trace of the operations. Each step is one critical section or one call that
may fail. Reconcile is the boot step. The theorems hold for every reachable state of every interleaving.
`ChainCalls` has `bringUp` and `tearDown` in their own imperative form over a host object and proves that they issue
exactly the sequences the machine steps through.

**B. The helper's session** (`HelperSession`, `HelperServer`, `HelperRuns`). `HelperServer` has the session record and
the handlers as classes and methods, stage by stage and resource by resource; `HelperRuns` is the step relation over
starts, stops, shutdown and any number of crash watchers. The Linux helper is the instance without network resources
and without a route snapshot.

**C. The server list** (`Servers`, `Merging`, `Stores`, `StoreRuns`, `StoreLaws`). Identifier reconciliation and merging are the
source's loops proved against functions; `Stores` has the transactions on both files; `StoreRuns` interleaves them
with syncs that fetch outside the lock. A hash is modelled as the tuple that is hashed.

**D. Compilers, printers and parsers** (`Rules`, `RuleCompiler`, `TunRoute`, `Vless`, `VlessUrl`, `Xray`,
`XraySubscription`). A flow is the set of elementary tests it passes, and sing-box's evaluation of a route is
written out: destination keys are alternatives, port keys are alternatives, everything else must hold, the first rule
that applies decides, and the protocol is known only after sniffing.

**E. Logs and versions** (`LogBuffer`, `LogLines`, `Versions`, with `Text` for trimming, splitting and numbers).

## Where the code does less than one would expect

Each of these is a proved statement about the code as it is, with the exact condition or a witness.

- An idle controller can have something left up in exactly five ways. One is residue at boot: whatever Reconcile finds
  up beyond what the recorded session and the helper's answer account for (`BootIsExact`, an if-and-only-if over every
  boot). It drops the error of its proxy clear (`DroppedClearLeaves`), looks for nothing when the helper does not answer
  (`SilentHelperLeaves`), and adopts a chain recorded in an unknown mode whose proxy is never cleared
  (`AdoptedUnknownLeaves`). The other four are steps: a rollback inside `bringUp` that fails with neither a Stop nor a
  recorded clean-up to finish it, a start in a mode that is neither of the two known ones, a system-proxy start over a
  TUN clean-up, and a TUN clean-up recorded over that of a proxy still set. `NoOrphans` proves that nothing is ever left
  without one of the five, and `ConditionsAreExact` that each of the four, in any state that is answered for, has a
  continuation that leaves something up.
- A failed connection attempt that half-wrote the OS proxy while a clean-up was owed leaves it to that clean-up
  (`AllOrNothing`, an if-and-only-if).
- A failed `StartChain` leaves the host as it was if and only if the rollback undid everything applied
  (`FailedStartLeavesNothing`); a rollback that fails is logged and forgotten.
- Removing the subscription with the empty identifier removes every manual server, because those have the empty
  source (`RemovalSparesManuals`, `EmptyRemovalTakesManuals`). The comment above `Remove` says that servers are kept;
  the code drops them, and the model follows the code.
- A rule with two or more kinds of destination tests (domains, address ranges, geo lists) means all of them to the
  rule model and any of them to sing-box (`RuleKeepsItsMeaning`, an if-and-only-if).
- Without validation a matcher of unknown kind would be dropped and its rule would capture all traffic
  (`UnconditionalExactly`, `MisspeltKindCapturesAll`).
- In TUN mode the model's default action and `final` are never used (`WrappedVerdict`); a bypass of the LAN ranges
  that the user limited to one program suppresses the general one (`NarrowBypassCounts`).
- The link of a configuration parses back to it if and only if it is canonical (`UrlRoundTrip`); a link of an IPv6
  address never does, because the address is printed without brackets, nor does one whose address holds an ASCII
  character that a host must escape, which an xray document can bring in.
- When a log file disappears while the start of a line is held, that start is put before the first line of the next
  file (`PollExactly`, an if-and-only-if, and `RestOutlivesTheFile`). A file replaced by one at least as long as the
  offset is not noticed (`PollInStep`, an if-and-only-if).

## Model

| member | source | states |
|---|---|---|
| ChainOps.TeardownCovers | internal/chainctl/ctrl.go:564-602 | the teardown plan of each known mode covers everything an attempt in that mode puts up; of an unknown mode, the chain only |
| ChainOps.CompensationCovers | internal/chainctl/ctrl.go:413-538 | each rollback in bringUp covers what the stages before it put up, and nothing of another mode |
| ChainSafety.ReachableInv | internal/chainctl/ctrl.go:131-369 | the ownership invariant holds in every reachable state of every interleaving |
| ChainSafety.OneAttemptAtATime | internal/chainctl/ctrl.go:174-299 | at most one attempt can still issue operations, and it is the one that owns the controller or is being waited for |
| ChainSafety.NeverTouchesANewerAttempt | internal/chainctl/poll.go:16-94 | no worker or poller changes the fields, the trace or the host while another attempt owns the controller |
| ChainStop.ReachableTrace | internal/chainctl/ctrl.go:304-369 | what Stop and drop handling issued is a prefix of their plan, in every reachable state |
| ChainStop.StopLeavesNothingOfItsMode | internal/chainctl/ctrl.go:304-369 | when Stop returns nil no goroutine is left, the status is idle, everything its plan covers is down, and the session record is gone exactly when its removal succeeded |
| ChainStop.StopComesLast | internal/chainctl/ctrl.go:304-369 | for every Stop that returned nil: the full plan ran, each step succeeded, and every operation of the cancelled attempt came before it |
| ChainProgress.CancelledWorkerLeaves | internal/chainctl/ctrl.go:217-299 | in every run a cancelled attempt takes no more steps than its rank, and after that many it is gone |
| ChainProgress.WaitsEnd | internal/chainctl/ctrl.go:304-369 | whenever Stop or Start waits, every goroutine left was told to leave and can go on, and once none is left the call can go on |
| ChainStop.KillSwitchHolds | internal/chainctl/poll.go:33-93 | after a drop with the kill switch on or unreadable, nothing is issued and the status stays error until the next call, however the run goes on |
| ChainStop.DropRunsOneTeardown | internal/chainctl/poll.go:33-93 | with the switch off, exactly one full teardown runs, and clean-up is owed exactly when a step failed or it was owed already |
| ChainRecord.StartsWhatWasAsked | internal/chainctl/ctrl.go:174-213 | an accepted Start launches a worker for the server found and the mode asked for, at once or after the wait, and reports both |
| ChainRecord.WaitingStartLaunches | internal/chainctl/ctrl.go:190-213 | so does the Start that had to wait |
| ChainRecord.ReportsTheAttemptInCharge | internal/chainctl/ctrl.go:372-395 | in every reachable state: connected exactly while an attempt is in charge, with its mode, and its server until its chain is found gone |
| ChainRecord.RecordChanges | internal/chainctl/ctrl.go:280-287 | the session record changes only when an attempt that came up saves its own server and mode, and when a successful Stop removes it |
| ChainRecord.RecordNamesTheAttempt | internal/chainctl/ctrl.go:280-287 | from its save on, and as long as the attempt is in charge or waited for, the record names its server and mode, in every run |
| ChainRecord.RebootAnswersForTheAttempt | internal/chainctl/ctrl.go:621-720 | after a crash, a boot that reads that record answers for all the attempt has up when the helper says the chain runs or is owed a clean-up |
| ChainRecord.BootReports | internal/chainctl/ctrl.go:621-720 | what a boot reports and touches, for every record, answer and host |
| ChainRecord.DropIsNoticed | internal/chainctl/poll.go:16-58 | a poll takes the chain for dropped exactly when the helper answers and the chain was gone |
| ChainRecord.DropIsTornDown | internal/chainctl/poll.go:33-93 | with the kill switch off, however the run goes on, the poller leaves only after its full teardown plan is in the trace |
| ChainLeaks.NoOrphans | internal/chainctl/ctrl.go:174-602 | over every run that keeps the four conditions, from every boot whose residue is accounted for and in every recorded mode, an idle controller has left nothing up, and at all times what is up is owned or owed |
| ChainWitness.ConditionsAreExact | internal/chainctl/ctrl.go:174-602 | from every state that is answered for, a step keeps all careful continuations free of leaks if and only if it keeps the four conditions |
| ChainWitness.RollbackLeaves | internal/chainctl/ctrl.go:413-538 | a rollback operation that fails to take something down, with no Stop and no debt to do it, has a continuation to idle with that still up |
| ChainWitness.UnknownLeaves | internal/chainctl/ctrl.go:174-299 | so has every accepted start in an unknown mode, with the OS proxy |
| ChainWitness.SwitchLeaves | internal/chainctl/ctrl.go:174-299 | so has every accepted system-proxy start over a TUN clean-up, with what is left of the TUN session or with the OS proxy |
| ChainWitness.RecordLeaves | internal/chainctl/poll.go:33-93 | so has every TUN clean-up recorded over that of a proxy still set, with a Stop waiting or not |
| ChainWitness.BootIsExact | internal/chainctl/ctrl.go:621-720 | for every record, answer and host: the boot state stays free of leaks on careful runs if and only if all that is up is accounted for |
| ChainWitness.DroppedClearLeaves | internal/chainctl/ctrl.go:669-685 | a boot whose proxy clear silently failed reads idle, with the proxy set and nothing owed |
| ChainWitness.SilentHelperLeaves | internal/chainctl/ctrl.go:660-668 | a boot without an answer of the helper reads idle, with a TUN device up and nothing owed |
| ChainWitness.AdoptedUnknownLeaves | internal/chainctl/ctrl.go:687-720 | an adopted chain of an unknown recorded mode can leave its proxy set behind an idle controller |
| ChainWitness.RollbackFailureLeaks | internal/chainctl/ctrl.go:413-538 | a careful run from a fresh boot to a step that breaks the first condition and no other, after which a route snapshot can be left behind |
| ChainWitness.UnknownModeLeaks | internal/chainctl/ctrl.go:564-602 | the same for the second: a start in an unknown mode, after which the OS proxy can stay set |
| ChainWitness.ModeSwitchLeaks | internal/chainctl/ctrl.go:174-299 | the same for the third: a system-proxy start over an owed TUN clean-up, after which the TUN device can stay |
| ChainWitness.OverwrittenDebtLeaks | internal/chainctl/poll.go:33-93 | the same for the fourth: a TUN drop that overwrites an owed proxy clean-up, after which the OS proxy can stay set |
| ChainCalls.AllOrNothing | internal/chainctl/ctrl.go:413-538 | for every host, mode, stage and debt: a failed bring-up whose rollback succeeds leaves the host as it found it if and only if nothing the rollback takes down was up before, and no half-written proxy is left to an owed clean-up |
| ChainCalls.AllOrNothingFresh | internal/chainctl/ctrl.go:413-538 | so it does whenever nothing of its mode was up and nothing was owed |
| ChainCalls.TeardownExact | internal/chainctl/ctrl.go:564-602 | a teardown without failures takes down exactly what its plan covers |
| ChainCalls.Controller.ClearSysproxyBestEffort | internal/chainctl/ctrl.go:548-562 | clears, then asks; without a failure the proxy is off |
| ChainCalls.Controller.TearDown | internal/chainctl/ctrl.go:564-602 | runs the whole plan whatever fails, reports whether anything did, and without a failure removes exactly what the plan covers |
| ChainCalls.Controller.RollBackTun | internal/chainctl/ctrl.go:442-500 | issues the rollback of the failed stage, in its order |
| ChainCalls.Controller.RollBackProxy | internal/chainctl/ctrl.go:504-530 | stops the chain, and clears the proxy unless a clean-up is owed |
| ChainCalls.Controller.BringUp | internal/chainctl/ctrl.go:413-538 | either all forward operations succeeded in order, or one stage failed and its rollback was issued |
| HelperSession.CompleteMeansNoFailure | internal/helper/server/chain_windows.go:212-499 | a start completes exactly when no stage that applies to it fails |
| HelperSession.AppliedExactly | internal/helper/server/chain_windows.go:212-499 | a start has put up exactly the resources it wants whose stage was reached and passed without a failure |
| HelperSession.SuccessfulStartRecords | internal/helper/server/chain_windows.go:212-499 | both cores always, the peer route in TUN mode, DNS exactly when asked for, with the routes as they were before on record |
| HelperSession.RequestsTaken | internal/helper/server/chain_windows.go:178-196 | a request is taken exactly when it names a host, a port and a known mode, with a device in TUN mode |
| HelperSession.PassDoes | internal/helper/server/chain_windows.go:640-731 | one pass field by field; it has errors exactly when one of its parts went wrong, and removes the journal exactly otherwise |
| HelperServer.Helper.UndoOne | internal/helper/server/chain_windows.go:640-731 | a resource is forgotten exactly when it was undone |
| HelperServer.Helper.UndoResources | internal/helper/server/chain_windows.go:640-731 | every held resource is tried; those that fail, and only those, stay held |
| HelperServer.Helper.RestoreRoutes | internal/helper/server/chain_windows.go:679-699 | the loop re-adds every missing route it can; the snapshot is forgotten exactly when nothing failed |
| HelperServer.Helper.StopActiveChainLocked | internal/helper/server/chain_windows.go:640-731 | one pass over the active session, released exactly when the pass had no error |
| HelperServer.Helper.StopChain | internal/helper/server/chain_windows.go:580-618 | refuses another session's identifier, otherwise one pass |
| HelperServer.Helper.WatchFires | internal/helper/server/chain_windows.go:513-558 | tears down only its own session, and only when that is not already stopping |
| HelperServer.Helper.Acquire | internal/helper/server/chain_windows.go:212-499 | a stage that went through: the host and the record gain the same resource, and nothing else changes |
| HelperServer.Helper.RollBack | internal/helper/server/chain_windows.go:212-499 | undoes what the flags say was applied; what cannot be undone stays on the host |
| HelperServer.Helper.StartChain | internal/helper/server/chain_windows.go:176-499 | refused, with nothing changed, when the request is malformed or a session is in the record; otherwise the new session and host are those of the stages that went through |
| HelperRuns.ReleasedOnlyWhenClean | internal/helper/server/chain_windows.go:197-201 | a session is released exactly in a pass in which nothing went wrong, written out part by part, and takes its journal with it; every start is refused until then |
| HelperRuns.NothingOutstanding | internal/helper/server/chain_windows.go:640-731 | once released, nothing the session put on the host is outstanding, whatever failed in whichever passes |
| HelperRuns.RoutesAreBack | internal/helper/server/chain_windows.go:640-731 | however the routing table is rewritten under it, a session without its snapshot, as every released one, had exactly one pass that forgot it, and that pass ended with every snapshotted route in place |
| HelperRuns.RoutesBeforeTheStartAreBack | internal/helper/server/chain_windows.go:271-282 | after a TUN start that succeeded, once its session is out of the record, one of its passes ended with every route in place that the host had before the start |
| HelperRuns.SuccessfulStartHolds | internal/helper/server/chain_windows.go:212-499 | over runs: what is up for the new session is exactly what was wanted, nothing else changes, and it is reported active |
| HelperRuns.JournalStays | internal/helper/server/chain_windows.go:466-480 | while a session is in the record, so is its journal |
| HelperRuns.PendingMeansAFailedPass | internal/helper/server/chain_windows.go:113-126 | a clean-up is reported pending exactly when a pass over the session in the record has run and failed; until a first pass the session is reported active |
| HelperRuns.UndoneAtMostOnce | internal/helper/server/chain_windows.go:640-731 | over any number of passes each resource is undone at most once |
| HelperRuns.RetrySucceeds | internal/helper/server/chain_windows.go:621-731 | the next pass without a failure releases the session |
| HelperRuns.WatcherActsOnce | internal/helper/server/chain_windows.go:513-558 | a watcher's pass is the first its session gets, and that watcher's only one |
| HelperRuns.WatcherMindsItsOwn | internal/helper/server/chain_linux.go:310-355 | a watcher touches no session but its own, and nothing at all when that is stopping or gone |
| HelperRuns.NeverActiveAgain | internal/helper/server/chain_linux.go:115-128 | after its watcher returned, a session is never reported active again, however the run goes on |
| HelperRuns.FailedStartLeavesNothing | internal/helper/server/chain_windows.go:212-499 | a failed start leaves the host as it was if and only if the rollback undid everything applied, and never leaves a session |
| Servers.FreeVariant | internal/server/identity.go:66-75 | the first variant identifier that is free; the search ends by a pigeonhole measure on the reserved set |
| Servers.AvailableVariantID | internal/server/identity.go:66-75 | the search loop finds that identifier |
| Servers.IndexExisting | internal/server/identity.go:23-36 | the maps built hold the first server of each connection and all servers of each endpoint |
| Servers.DropRepeats | internal/server/identity.go:37-48 | one server for each connection in first-seen order, with the count at each endpoint |
| Servers.ReconcileIncomingIDs | internal/server/identity.go:22-64 | the three loops compute the specified assignment |
| Merging.Merge | internal/server/store.go:48-80 | the loops compute the specified merged list |
| Merging.UniqueConnections | internal/server/identity.go:37-48 | exactly the incoming connections, each once |
| Merging.UniqueIsFirstSeen | internal/server/identity.go:37-48 | every connection stands where it was first seen |
| Merging.AssignedSound | internal/server/identity.go:49-63 | assigned identifiers are distinct, and each is that of a server taken over or of nobody |
| Merging.MergeKeepsIdsApart | internal/server/store.go:48-80 | distinct identifiers in, distinct identifiers out; one entry for each incoming connection in order, then every other server untouched and in order |
| Merging.KnownConnectionKeepsIdAndFlags | internal/server/store.go:48-80 | a connection the source had keeps its identifier and the user's flags |
| Merging.ChangedConnectionKeepsIdAndFlags | internal/server/identity.go:49-63 | so does a server whose settings changed, when it is the only one at its endpoint before and after |
| Merging.MergeIsIdempotent | internal/server/store.go:48-80 | merging the same answer again changes nothing |
| Merging.SyncPathsAgree | internal/subscription/sync.go:64-73 | reconciling a fetched list with nothing first, as the background refresh does, gives the same stored list |
| Merging.ConnectionIsAllButTheRemark | internal/server/identity.go:12-20 | two configurations are one connection if and only if they differ in the remark at most |
| Merging.EndpointIsPlaceAndUser | internal/server/model.go:44-57 | they share an endpoint if and only if address, port and user are the same |
| Merging.NoTwinsAfterMerge | internal/server/store.go:48-80 | no two servers of a merged source differ in the remark only |
| Merging.RenamedServerKeepsIdAndFlags | internal/server/identity.go:49-63 | a server whose remark alone changed keeps its identifier and flags, whatever else is at its endpoint |
| Stores.FetchParse | internal/subscription/sync.go:124-139 | the servers of the fetched configurations, one for each connection, named after their endpoint |
| Stores.Store.AddSubscription | internal/bindings/subs.go:106-150 | the list gains the subscription and nothing else changes |
| Stores.Store.RemoveSubscription | internal/bindings/subs.go:157-218 | the subscription and all servers with its identifier as source go in one step |
| Stores.Store.EditSubscription | internal/bindings/subs.go:220-291 | a changed URL drops the servers of the former one in the same step |
| Stores.Store.CommitSync | internal/bindings/subs.go:346-394 | merges exactly when the subscription still has the URL fetched from |
| Stores.Store.ToggleFavorite | internal/bindings/servers.go:87-118 | flips one flag of one server |
| Stores.Store.ApplyLatencies | internal/bindings/servers.go:174-193 | latencies are applied by identifier to the current list |
| Stores.Store.ApplyProbes | internal/refresh/probe_tick.go:93-129 | so are the probe's results, through an index, skipping blanks |
| Stores.Store.AddManual | internal/bindings/servers.go:264-306 | the list gains one manual server |
| Stores.Store.RemoveManual | internal/bindings/servers.go:311-378 | removes a manual or orphaned server that is not active, and nothing else |
| Stores.Store.EditManual | internal/bindings/servers.go:383-445 | changes name and configuration of a manual server only |
| StoreRuns.ServersComeFromCurrentUrls | internal/bindings/subs.go:157-433 | in every state of every interleaving identifiers are distinct and each subscription server belongs to an existing subscription and was brought by a fetch for it from the URL it has now |
| StoreRuns.StepInv | internal/refresh/sub_tick.go:20-71 | each transaction, fetch and commit keeps that |
| StoreRuns.NoOrphanToRemove | internal/bindings/servers.go:311-378 | so only manual servers are ever removable: there are no orphans |
| StoreRuns.ManualServersAreTheirOwn | internal/bindings/servers.go:87-445 | over a whole run the manual servers evolve by their own operations alone, but for removal of the empty identifier |
| StoreRuns.EveryRun | internal/bindings/subs.go:106-433 | both of these hold of every run from empty stores |
| StoreRuns.RemovalSparesManuals | internal/bindings/subs.go:157-218 | removal spares the manual servers if and only if the identifier is not empty or there are none |
| StoreRuns.EmptyRemovalTakesManuals | internal/bindings/subs.go:157-218 | a run in which the empty identifier removes a manual server |
| StoreLaws.SyncStoresItsAnswer | internal/bindings/subs.go:306-433 | whatever happens between the answer and the end of a sync: each configuration fetched stands in the list once, no other server of the source does, and all others are untouched, if the URL still matches; otherwise nothing changes |
| StoreLaws.CommitLaw | internal/refresh/sub_tick.go:26-71 | the same of one commit, from the user or from the background |
| StoreLaws.ToggleLaw | internal/bindings/servers.go:87-118 | exactly the favourite flag of the one server turns over |
| StoreLaws.MeasureLaw | internal/bindings/servers.go:174-193 | measured servers get exactly what was measured |
| StoreLaws.LastResultCounts | internal/refresh/probe_tick.go:104-120 | of several results for one server the last counts |
| StoreLaws.EditLaw | internal/bindings/subs.go:220-291 | an edited subscription has the new URL and none of its former servers; unknown identifiers and the same URL change nothing |
| StoreLaws.RemoveLaw | internal/bindings/subs.go:157-218 | the subscription is gone, and exactly the servers with its identifier as source |
| StoreLaws.AddLaw | internal/bindings/servers.go:264-306 | a new manual server comes last, under the name given, else its remark, else its place |
| StoreLaws.EditServerLaw | internal/bindings/servers.go:383-445 | name, remark and configuration of the manual server named, and nothing else |
| StoreLaws.RemoveServerLaw | internal/bindings/servers.go:311-378 | exactly the named server, if it may be removed |
| StoreLaws.PlaceReadsBack | internal/server/model.go:59-65 | the place shown is in the form a link takes apart again, with brackets around an IPv6 literal |
| Rules.ValidateConditions | internal/rules/model.go:90-125 | the scans accept exactly the valid conditions |
| Rules.ValidateRule | internal/rules/model.go:80-127 | accepts exactly the valid rules |
| Rules.Validate | internal/rules/model.go:146-158 | accepts exactly the valid models |
| Rules.AcceptedExactly | internal/rules/model.go:80-127 | a rule is accepted exactly under the conditions written out |
| RuleCompiler.CompileRule | internal/rules/compile.go:42-104 | the loops build the specified route rule |
| RuleCompiler.SplitDomains | internal/rules/compile.go:71-83 | the four lists of domain values, in order |
| RuleCompiler.Compile | internal/rules/compile.go:15-40 | refuses exactly the invalid models, and compiles the rules in force in order |
| RuleCompiler.InForceIs | internal/rules/compile.go:22-33 | a rule is in force exactly when it is enabled in an enabled group |
| RuleCompiler.InForceInOrder | internal/rules/compile.go:22-33 | groups keep their order |
| RuleCompiler.ActiveInOrder | internal/rules/compile.go:26-31 | so do rules |
| RuleCompiler.CompiledMeans | internal/rules/compile.go:42-104 | on every flow a compiled valid rule applies when any destination test and all other kinds hold |
| RuleCompiler.RuleKeepsItsMeaning | internal/rules/model.go:55-63 | the compiled rule applies to the same flows as the rule if and only if it uses at most one kind of destination test |
| RuleCompiler.UnconditionalExactly | internal/rules/compile.go:42-104 | a rule compiles to one for all traffic if and only if none of its tests survives the switches |
| RuleCompiler.ValidIsConditional | internal/rules/model.go:80-127 | no valid rule does |
| RuleCompiler.MisspeltKindCapturesAll | internal/rules/compile.go:71-83 | an unvalidated rule with a misspelt kind would capture everything |
| RuleCompiler.CompiledVerdict | internal/rules/compile.go:15-104 | for every valid model and flow: the first rule in force that applies, with the kinds of destination tests as alternatives, else the default action |
| RuleCompiler.ModelVerdictKept | internal/rules/compile.go:15-104 | that is the model's own verdict when every rule in force uses at most one kind of destination test |
| RuleCompiler.VerdictIsKnown | internal/rules/model.go:24-31 | every verdict of a valid model is one of the three outbounds |
| TunRoute.Route.HasEquivalentLanBypass | internal/configgen/singbox.go:296-338 | found exactly when some rule sends all LAN ranges direct, whatever else it asks for |
| TunRoute.Route.PrependLanBypass | internal/configgen/singbox.go:280-289 | the bypass goes right after the first rule |
| TunRoute.Route.ApplyTunModeKillswitch | internal/configgen/singbox.go:350-430 | the new rules and final, in place |
| TunRoute.BuildRoute | internal/configgen/singbox.go:436-487 | the route of a valid model for every input; none for an invalid one |
| TunRoute.WrappedVerdict | internal/configgen/singbox.go:350-430 | in TUN mode, for every compiled list, flow and final: hijack, LAN direct when the bypass was inserted, first match, IPv6 block, proxy, in that order |
| TunRoute.TunVerdict | internal/configgen/singbox.go:350-487 | for every valid model and flow, with the seven private ranges and the IPv6 condition written out: hijack, direct, the first applying rule (the first match when rules use one kind of destination test each), block, proxy |
| TunRoute.OnlyPrivateGoesDirect | internal/configgen/singbox.go:256-264 | what goes direct in TUN mode is to a private range or by a rule of the user |
| TunRoute.ProxyModeVerdict | internal/configgen/singbox.go:436-487 | outside TUN mode the first applying rule or the default action, after the LAN bypass if allowed |
| TunRoute.NarrowBypassCounts | internal/configgen/singbox.go:296-338 | a bypass limited to one program suppresses the general one |
| Vless.TransportRoundTrip | internal/vless/transport.go:18-61 | every transport's name parses back to it |
| Vless.SecurityRoundTrip | internal/vless/transport.go:70-94 | so does every security's |
| Vless.TransportsUnderstood | internal/vless/transport.go:40-61 | beside the printed names a missing one is TCP and kcp is mKCP; nothing else is understood |
| Vless.SecuritiesUnderstood | internal/vless/transport.go:84-94 | a missing security is none; nothing but the printed names is understood otherwise |
| Vless.Normalize | internal/vless/compat.go:10-45 | refuses exactly what Reality cannot do, drops exactly a flow that does not fit, and reports each oddity |
| Vless.CompatibleExactly | internal/vless/compat.go:10-45 | the compatibility rules, written out |
| VlessUrl.SplitCSV | internal/vless/url.go:224-234 | the trimmed fields that are not blank, in order |
| VlessUrl.ListRoundTrip | internal/vless/url.go:224-234 | a joined list of clean fields splits back to it |
| VlessUrl.SplitPrinted | internal/vless/url.go:207-214 | the printed host splits back where it was joined, unless the address has a colon or an ASCII character that a host must escape |
| VlessUrl.ToUrl | internal/vless/url.go:130-215 | the parameters set step by step are those of the specified link |
| VlessUrl.ParseURL | internal/vless/url.go:49-127 | the fields filled step by step are those of the specified parse, and errors are the same |
| VlessUrl.ParsedIsCanonical | internal/vless/url.go:49-127 | every accepted configuration is canonical, unless its address is an IPv6 literal |
| VlessUrl.UrlRoundTrip | internal/vless/url.go:49-234 | printing and parsing gives the configuration back if and only if it is canonical, which includes that the address can be a host |
| VlessUrl.ParsePrintParse | internal/vless/url.go:49-234 | parsing, printing and parsing loses nothing if and only if the address is no IPv6 literal |
| VlessUrl.ParameterMeanings | internal/vless/url.go:70-126 | what each parameter of an accepted link stands for, with its default |
| VlessUrl.AcceptedExactly | internal/vless/url.go:49-79 | a link is accepted exactly when it has a user, a host and a port and says nothing unknown |
| Xray.BuildStream | internal/configgen/xray.go:109-178 | the sections set case by case are those of the specified stream |
| Xray.ApplyTls | internal/subscription/parser_xray_stream.go:31-52 | the security section, or a refusal when it asks for more than is supported |
| Xray.ApplyNet | internal/subscription/parser_xray_stream.go:53-111 | the section of the transport, or a refusal |
| Xray.ApplyXrayStream | internal/subscription/parser_xray_stream.go:10-112 | the options a stream stands for, unsupported or invalid, by the first check that fails |
| Xray.ApplyHost | internal/subscription/parser_xray_stream.go:114-126 | the host after the headers in their order, or a refusal at the first that is no host header |
| Xray.ParseUser | internal/subscription/parser_xray.go:128-149 | one user: complex, invalid, or a configuration the compatibility rules leave as it is |
| Xray.ParseXrayOutbound | internal/subscription/parser_xray.go:98-152 | the nested loops over endpoints and users |
| Xray.StreamComesBack | internal/subscription/parser_xray_stream.go:10-112 | a generated stream is read back as the settled options |
| Xray.GeneratedIsRead | internal/configgen/xray.go:33-62 | what the parser makes of the generated outbound of any configuration whatever |
| Xray.SettledBuildsTheSame | internal/configgen/xray.go:33-178 | the settled configuration generates the identical outbound, key for key |
| Xray.XrayRoundTrip | internal/subscription/parser_xray.go:98-152 | exactly one configuration with the identical outbound comes back if and only if the configuration is exportable |
| Xray.XrayReadsBack | internal/subscription/parser_xray.go:98-152 | that configuration is the settled one |
| Xray.XrayFixedPoint | internal/subscription/parser_xray.go:98-152 | one trip reaches a fixed point |
| Xray.ReadIsExportable | internal/subscription/parser_xray.go:98-152 | every configuration read from any outbound can be written out again |
| Xray.OtherSpellings | internal/subscription/parser_xray_stream.go:14-92 | the other names of networks, the password for a key, and the sections that stand in for others |
| Xray.StreamSetAsideExactly | internal/subscription/parser_xray_stream.go:10-132 | a stream is set aside exactly for the features written out |
| Xray.SetAsideExactly | internal/subscription/parser_xray.go:98-131 | an outbound is set aside exactly when it is chained, its stream is, or a user is for a reverse proxy |
| Xray.EndpointsAccounted | internal/subscription/parser_xray.go:121-152 | every user is read or counted as invalid |
| Xray.ResolvedAddressIsDialled | internal/configgen/xray.go:33-42 | a resolved address replaces the one dialled and nothing else |
| XraySubscription.ReadEntries | internal/subscription/parser_xray.go:35-73 | what the outbounds of a document yield and count |
| XraySubscription.EntryIsCounted | internal/subscription/parser_xray.go:35-73 | every entry is accounted for once |
| XraySubscription.SafeProtocol | internal/subscription/parser_xray.go:159-165 | foreign protocols are counted under a short plain name, whatever a document calls them |
| XraySubscription.PlainNamesAreKept | internal/subscription/parser_xray.go:159-165 | a plain name is kept, in lower case |
| XraySubscription.AddOne | internal/subscription/parser_xray.go:79-89 | one candidate through the index by connection |
| XraySubscription.ParseXray | internal/subscription/parser_xray.go:14-96 | the loops over documents, outbounds and configurations, with the counts of what was invalid or skipped |
| XraySubscription.TalliedSettles | internal/subscription/parser_xray.go:74-90 | each connection once, as the first candidate a document named or else the first of all, and none left out |
| XraySubscription.NamesItsOnlyServer | internal/subscription/parser_xray.go:74-78 | a document with one server and remarks names it; no other names anything |
| XraySubscription.SubscriptionYields | internal/subscription/parser_xray.go:14-96 | the same of the parser's result, all of it exportable |
| XraySubscription.GeneratedDocument | internal/configgen/xray.go:33-105 | the generated document, as a subscription, yields exactly the settled configuration |
| LogBuffer.Buffer.constructor | internal/logstream/buffer.go:29-34 | an empty history, and 2000 entries for a capacity that is not positive |
| LogBuffer.Buffer.Add | internal/logstream/buffer.go:36-51 | the history gains the redacted entry with the next number |
| LogBuffer.Buffer.Snapshot | internal/logstream/buffer.go:63-72 | exactly the entries still among the latest of their source, in order |
| LogBuffer.Buffer.Tail | internal/logstream/buffer.go:81-87 | the last entries of the snapshot; for 0 < n <= cap, of all ever added; in strictly increasing order |
| LogBuffer.TailIsGlobal | internal/logstream/buffer.go:36-87 | whatever the rings dropped, the last n <= cap entries ever added are all retained, and last |
| LogLines.ReadLogs | internal/helper/server/readlogs.go:39-77 | the chunk, the new offset and whether it started over |
| LogLines.SplitIsExact | internal/logstream/poller.go:104-115 | lines and rest make up the text again and hold no newline |
| LogLines.SplitResumes | internal/logstream/poller.go:103-115 | splitting may stop anywhere and go on from the rest |
| LogLines.SplitLines | internal/logstream/poller.go:104-115 | the splitting loop |
| LogLines.LogFile.PollOnce | internal/logstream/poller.go:80-117 | one poll of one file |
| LogLines.PollExactly | internal/logstream/poller.go:99-103 | a poll keeps the split exact if and only if the file exists or nothing is held |
| LogLines.LinesAreTheSplit | internal/logstream/poller.go:80-117 | for every history and schedule, lines and rest are the split of what was consumed, and the offset is its length |
| LogLines.PollInStep | internal/helper/server/readlogs.go:56-77 | after a poll the follower is in step if and only if it was, or the file had become shorter than the offset |
| LogLines.GrowingFileIsFollowed | internal/logstream/poller.go:80-117 | while the file grows, lines and rest are the split of its first offset bytes |
| LogLines.BufferGetsTheLines | internal/logstream/poller.go:104-115 | over every run, what the polls add to the buffer is exactly the lines found, cleaned, without the empty ones |
| LogLines.CleanLine | internal/logstream/poller.go:109-113 | a line loses the carriage returns at its end and its escape codes |
| LogLines.RestOutlivesTheFile | internal/helper/server/readlogs.go:40-43 | a held start of a line is put before the next file's first line |
| LogLines.DrainsInTime | internal/helper/server/readlogs.go:65-77 | the end of a file that does not grow is reached by exactly the polls that ceil(remaining / cap) asks for |
| Text.SplitJoin | internal/vless/url.go:224-226 | joined fields split back |
| Text.ValueOfDecimal | internal/vless/url.go:65-68 | a printed number reads back |
| Versions.StrippedParsesTheSame | cmd/itgray-electron/src/main/updates.ts:76-87 | a tag that parses does so again, to the same version, once it is stripped |
| Versions.PrintedParses | cmd/itgray-electron/src/main/updates.ts:66-87 | a written version, with or without the leading letter, is read back field by field |
| Versions.ParsesExactly | cmd/itgray-electron/src/main/updates.ts:66-87 | a tag parses to a version if and only if, trimmed and without its letter, it is three numbers with an optional chain and optional metadata that mean it |
| Versions.CompareIdentifier | cmd/itgray-electron/src/main/updates.ts:93-101 | the sign is the precedence of section 11.4 of Semantic Versioning 2.0.0 |
| Versions.CompareChains | cmd/itgray-electron/src/main/updates.ts:125-132 | the loop's sign is the precedence of the chains |
| Versions.CompareVersions | cmd/itgray-electron/src/main/updates.ts:112-133 | nothing when a tag does not parse; otherwise the sign is the precedence of section 11 |
| Versions.OneOfThree | cmd/itgray-electron/src/main/updates.ts:112-133 | of two versions exactly one is lower, or they have the same precedence |
| Versions.AtMostTransitive | cmd/itgray-electron/src/main/updates.ts:112-133 | precedence is a total preorder |
| Versions.OfferedExactly | cmd/itgray-electron/src/main/updates.ts:150-153 | a missing entry, a draft and a missing or malformed tag are never offered |
| Versions.PickLatestRelease | cmd/itgray-electron/src/main/updates.ts:148-160 | the first of the highest releases that are no drafts and parse, or nothing exactly when there is none |

## Left out

- Operating system and library layers (service control, registry, wintun, routes, DNS, processes, pipes, HTTP): they
  are operations that succeed or fail.
- Mutexes, the wait group and contexts are not modelled as objects; a critical section is one step, and waiting is a
  step that is enabled when what is waited for has happened.
- A failed operation of the controller has no effect on the host, except that a failed proxy write may have half
  happened and a proxy clear may silently not have.
- ChainLeaks.NoOrphans: assumes the four conditions and that all that is up at boot is accounted for; both assumptions
  are proved to be exact, by ChainWitness.ConditionsAreExact and ChainWitness.BootIsExact.
- Hub events and their order, traffic counters, timing, jitter and retry back-off.
- Runtime directories, configuration files on disk, and the metadata of subscriptions (status, quota, name).
- Errors while loading or saving the two stores: a transaction saves both files or does not happen.
- SHA-256, base64, JSON text, percent-encoding and regular expressions: hashes are injective, documents and links
  are datatypes, and checks of regular expressions and addresses are parameters. An absent query parameter and an
  empty one read the same and are not told apart.
- Details of unsupported xray features (certificates, padding, masks, chained proxies) are flags; the override of the
  server address by a resolved one is in the generator but not in the round trip.
- XraySubscription.ParseXray: takes each vless outbound as what ParseXrayOutbound makes of it.
- LogBuffer.Buffer.Add: does not model the wrap-around of the 64-bit sequence number; redaction is a parameter.
- LogLines: several files are followed independently of one another, so one is modelled; level detection is left out.
- Versions: numbers are unbounded, where the source's are exact up to 2^53.
- DNS, inbounds and outbounds of the sing-box document; geo downloads; the electron shell, the bridge and the user
  interface.

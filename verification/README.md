# Node disruption controller: admission protocol and budgets

Users ask to disrupt nodes by creating NodeDisruptions. The controller adds a finalizer, takes each disruption from
Unknown to Pending, and tries it: it brings every budget in the cluster up to date, checks its own constraints, asks
every budget it touches for tolerance, then calls the prepare, ready or health hooks of the applications, and writes
Granted, Rejected or Pending again. On deletion it calls terminate hooks before it gives its finalizer up.

This project models that as code and as a transition system, and proves what holds over every run.

| file | content |
|---|---|
| `Types.dfy` | API objects, reduced to what decisions read |
| `Resolver.dfy` | selectors to node sets, sorted lists, translation of volume affinity |
| `Rounding.dfy` | int to float64, section 4.3.1 of IEEE 754-2019 |
| `Budgets.dfy`, `BudgetResolver.dfy` | what a budget computes; the resolver class and the snapshot behind every grant |
| `BudgetReconciler.dfy`, `Watches.dfy` | budget reconcilers; which events wake which budget |
| `Admission.dfy`, `Reconciler.dfy` | the decision of one attempt as functions; the reconciler class proved against them |
| `Syncs.dfy`, `Outcomes.dfy` | what these functions compute, stated on the fields of the objects read alone |
| `Protocol.dfy` | worlds, steps, runs |
| `Controller.dfy`, `Uninterrupted.dfy` | the outer reconcile against an API server, and the run of the protocol it is |
| `Lifecycle.dfy`, `Safety.dfy`, `Bounds.dfy`, `Late.dfy`, `Accounting.dfy`, `History.dfy`, `Completed.dfy`, `Hooks.dfy`, `Retry.dfy`, `Independence.dfy` | properties of all runs |
| `Overlap.dfy`, `Counted.dfy`, `Preparing.dfy` | exactly when a run does not do what is documented |
| `Tightness.dfy`, `Extremes.dfy`, `Schedule.dfy`, `Stories.dfy` | runs that reach the bounds, and runs that break stronger claims |

`dafny verify dfyconfig.toml` checks everything.

## How the protocol is modelled

A run is any sequence of steps from a cluster without disruptions; a step that is not possible leaves the world as it
is. Users create disruptions and mark them deleted, others add and remove their own finalizers, budgets are written,
created and removed, and the clock advances, between any two steps of the worker. The worker's attempt is split into
Start, one SyncNext for each budget, Decide and Commit; the deletion path into TerminatePass and RemoveFinalizer. A
write carries the version that was read and is refused when the stored version moved. `Abort` is an API error anywhere.
`log` (hook calls with answers, completed attempts, finalizers given up) and `order` (granted names, oldest first) are
history that no step reads.

Assumptions:

- One worker reconciles disruptions and reads the latest stored state. `Extremes.TwoWorkersExceed` shows that with two
  workers the bounds fail.
- Nodes, pods, claims and volumes, and the specs of disruptions, do not change along a run. `Watches` is about such changes.
- A property of runs that is about one budget assumes that its spec stays and it is not removed; its status and all
  other budgets are free. `Late.LateBudgetBound` says what is left of the bounds when the budget comes or changes later,
  `Hooks.ReleaseFollowsPass` is about whatever budgets there are.
- Nobody but the controller writes the status of a disruption, and none is created with a status.
- TerminatePass reads all budgets and calls all terminate hooks in one instant, and Decide reads the disruptions and
  calls all other hooks in one instant.
- Users leave the controller's finalizer alone.
- Times are whole seconds. Each attempt reads the clock six times, in increasing order.
- Objects carry their Kind, and object names are unique, as the API server guarantees.
- A node budget watches at most 2^53 nodes, so that counts of nodes are exact in float64.
- The answer of a hook is an arbitrary success or failure, chosen for each kind and budget.
- After an update, events are mapped for the old and the new version of an object.

## Where the code and its documentation differ

- A node budget is documented as a bound on nodes (README.md:229-230), but it subtracts nodes when it checks and counts
  disruptions afterwards. `Extremes.DocumentedBoundsFailExactly` says for which budgets the documented bounds can fail;
  `Bounds.NodeBudgetBound` is what is guaranteed, `Bounds.NodeBudgetUnitBound` when the documented bounds are.
- Granted disruptions of a type a budget does not support are counted by it but never checked, so the bounds are over
  supported types. `Counted.CountedBound` extends them to all granted disruptions where every configured type is
  supported and the overlap check is off; `Counted.CountedBoundFailsExactly` says when the count can exceed any limit.
  With the overlap check, configured types do not help: `Extremes.OverlapSkipsTypes`. Budgets without types get the
  default ones only when their own reconciler writes them; until then they support nothing.
- Overlaps are documented as rejected "preserving the oldest one" (cmd/main.go:82). The check ignores age, and also
  returns before the type check (`Admission.TypeCheckedExactlyWithoutOverlap`). `Overlap.OverlapDecidesExactly` says whom
  it turns down, `Overlap.SurvivorIsTriedLater` who survives, and in `Stories.OlderRejectedYoungerGranted` the younger does.
- Where Preparing is false, "nothing has been started" (internal/controller/nodedisruption_controller.go:352), so nobody
  is told when the disruption ends. But an application can have prepared: because the attempt that asked it was never
  written (`Stories.PreparedThenDeleted`), or because a later attempt dropped the record, as it does when an internal
  check other than the deadline fails or any budget refuses (`Stories.PreparedThenForgotten`,
  `Admission.PreparingLostExactlyWhen`). `Preparing.PreparedNotTerminatedExactly` shows that these are all the ways.
- The terms of a volume's node affinity are all required, where Kubernetes means any of them: `Resolver.TranslationMeaning`.
- A budget recorded Ok by its health hook that then gets a v2 URL can be granted without prepare and ready calls:
  `Stories.GrantedUnprepared`, and exactly then: `Admission.GrantWithoutReadyExactly`. This is why the order of hooks is
  stated for fixed specs.
- Application budgets are not woken by changes of nodes, which can change their status:
  `Watches.NodeEventsMatterExactly`. Attempts do not depend on that: `Independence.StatusesDecideNothing`.

## Model

| member | source | states |
|---|---|---|
| Bounds.ApplicationBudgetBound | internal/controller/applicationdisruptionbudget_controller.go:198-227 | In every reachable world at most max(0, MaxDisruptions) granted disruptions of supported types touch an application budget, with creations, deletions, other budgets and status writes anywhere between the budget snapshot and the status write. |
| Bounds.NodeBudgetBound | internal/controller/nodedisruptionbudget_controller.go:179-222 | In every reachable world the i-th oldest granted disruption (from 0) covers at most capacity - i watched nodes, capacity = min(MaxDisruptedNodes, watched - MinUndisruptedNodes); so at most capacity of them exist and they cover at most 1 + ... + capacity watched nodes. |
| Bounds.NodeBudgetUnitBound | internal/controller/nodedisruptionbudget_controller.go:211-222 | If each granted disruption covers at most one watched node, at most max(0, MaxDisruptedNodes) watched nodes are disrupted, and once any is granted at least MinUndisruptedNodes are not. |
| Bounds.OrderIsCheckedGrants | internal/controller/nodedisruption_controller.go:491-522 | The history used to state the bounds lists exactly the granted, supported, touching disruptions, once each, and covers exactly their watched nodes. |
| Safety.RunSafe | internal/controller/nodedisruption_controller.go:287-344 | The inductive invariant of the bounds: room for every grant in order, and for the grant the worker is about to write, against what is granted at that moment. |
| Safety.SyncCountsGranted | internal/controller/nodedisruptionbudget_controller.go:270-309 | In a reachable world a Sync leaves the budget in sync with its watched nodes and counts exactly the granted disruptions that touch them. |
| Tightness.GrantableExactly | internal/controller/nodedisruption_controller.go:491-522 | With one budget without v2 hooks, and where the controller's own checks pass, a list of disruptions without dates can be what is granted, in this order, if and only if the i-th asks for at most capacity - i. |
| Tightness.GrantAll | internal/controller/nodedisruption_controller.go:271-344 | A run that grants such a list, from creation over finalizer, Pending and attempt to grant. |
| Extremes.MostDisruptedExactly | internal/controller/nodedisruptionbudget_controller.go:179-222 | More than `limit` of the n nodes such a budget watches can be disrupted in some run if and only if min(n, 1 + ... + capacity) is more than `limit`. |
| Extremes.DocumentedBoundsFailExactly | README.md:229-230 | The documented bounds on nodes can be exceeded if and only if the capacity is at least two and the limit is below both the watched nodes and 1 + ... + capacity. |
| Extremes.WidestRun | internal/controller/nodedisruptionbudget_controller.go:218-222 | For every such budget a run in which capacity disruptions cover min(n, 1 + ... + capacity) nodes. |
| Counted.CountedBoundFailsExactly | internal/controller/nodedisruption_controller.go:497-499 | Without the overlap check, the count of a budget exceeds any given limit at or above max(0, capacity) in some run if and only if the budget can be touched at all and some allowed type is not supported (with no types configured every type is allowed). |
| Counted.CountedBound | internal/controller/nodedisruption_controller.go:469-481 | With types configured, all of them supported, and the overlap check off, all granted disruptions that touch a budget, whatever their types, are at most max(0, capacity) in every reachable world. |
| Counted.ExcessIsUnsupported | internal/controller/nodedisruption_controller.go:497-499 | Whenever a budget counts more than its capacity, one of those granted is of a type it does not support. |
| Counted.GrantedTypesAllowed | internal/controller/nodedisruption_controller.go:469-481 | Without the overlap check, whatever is granted in a reachable world has one of the configured types. |
| Extremes.OverlapSkipsTypes | internal/controller/nodedisruption_controller.go:461-467 | With the overlap check on, any number of disruptions (up to 2^53) is granted and counted under a budget of capacity 0 that supports every configured type. |
| Extremes.TwoWorkersExceed | internal/controller/nodedisruption_controller.go:405-408 | For every capacity, two interleaved workers exceed it: the late write lands because only the version of its own object is checked. |
| Late.LateBudgetBound | internal/controller/nodedisruption_controller.go:294-302 | A budget that comes, or gets its spec, in the middle of a run: never more is granted under it than max(0, capacity), or than what was granted at that moment and the one attempt then in flight. |
| Completed.CompletedExactly | internal/controller/nodedisruption_controller.go:287-344 | In every run each completed attempt ended Granted, or Pending until DoNotGrantBefore, if nothing failed; otherwise Pending if retrying is on and not past the deadline, or some application concerned has started to prepare and the deadline is not past; otherwise Rejected. What fails is stated on the fields of the disruptions and synced budgets it decided on and on the answers. |
| Completed.GrantedCoverNodes | internal/controller/nodedisruption_controller.go:460-467 | With RejectEmptyNodeDisruption every granted disruption covers a node in every reachable world. |
| Completed.CallsNameNodes | internal/controller/applicationdisruptionbudget_controller.go:335-354 | In every run, for a budget whose spec stays: each logged prepare or ready call names exactly the nodes of the disruption that the budget watches, sorted, each health call all nodes of the disruption, each terminate call those recorded for the disruption that the stored budget has recorded as watched. |
| Completed.EveryCall | internal/controller/nodedisruption_controller.go:524-608 | Every call in the history was made by a Decide or a TerminatePass of that attempt on that disruption. |
| Hooks.GrantsFollowHooks | internal/controller/nodedisruption_controller.go:524-608 | Before a logged grant, each supported impacted v2 budget had a successful prepare in a strictly earlier attempt and a successful ready in the granting one; any other one with a health hook a successful health call in it. |
| Hooks.GrantedAfterHooks | internal/controller/nodedisruption_controller.go:524-608 | So every granted disruption in every reachable world has such a granting attempt in the history. |
| Accounting.FinalsAreLogged | internal/controller/nodedisruption_controller.go:287-344 | In every reachable world the history has the attempt that granted or rejected each granted or rejected disruption. |
| History.RunExplained | internal/controller/nodedisruption_controller.go:287-344 | In every run each completed attempt was decided, and each finalizer given up was preceded by its pass, at a step whose world, listing, answers and clock are those the history records. |
| History.RunOrdered | internal/controller/nodedisruption_controller.go:235-242 | The history is in the order of the attempts, and the calls of an attempt come before its write. |
| History.FailedSyncCallsNothing | internal/controller/budget.go:109-116 | In every run, an attempt of which one listed budget does not sync calls no hook and writes nothing, then or later. |
| Hooks.ReadyFollowsPrepare | internal/controller/nodedisruption_controller.go:550-580 | Ready is never called on a v2 budget before a prepare of an earlier attempt succeeded. |
| Hooks.ReleaseFollowsPass | internal/controller/nodedisruption_controller.go:347-393 | In every run, whatever happens to the budgets: each finalizer given up comes from a terminate pass of that attempt, in which no recorded preparing application budget was unreadable and each one that existed then with a v2 URL acknowledged terminate. |
| Hooks.ReleaseFollowsTerminate | internal/controller/nodedisruption_controller.go:154-166 | For a v2 budget whose spec stays: the finalizer is given up only after it, if then recorded preparing, acknowledged terminate in that very pass. |
| Preparing.PreparedNotTerminatedExactly | internal/controller/nodedisruption_controller.go:351-355 | For a v2 budget whose spec stays, in every run: when a finalizer was given up the budget had answered prepare but was not told in that pass, if and only if the attempt of its last successful prepare was never written, or a later written one dropped the record. |
| Preparing.RunTracked | internal/controller/nodedisruption_controller.go:524-588 | The inductive invariant: in every reachable world a disruption is recorded preparing for the budget exactly when the history says so, and no other entry hides the record. |
| Stories.PreparedThenDeleted | internal/controller/nodedisruption_controller.go:351-354 | A run in which prepare is answered, the disruption is deleted before that is written, and the finalizer is given up with no terminate call. |
| Stories.PreparedThenForgotten | internal/controller/nodedisruption_controller.go:313-344 | A run in which the answer was written, a later attempt fails the overlap check and drops it, and the finalizer is given up with no terminate call. |
| Hooks.RunBacked | internal/controller/nodedisruption_controller.go:524-588 | The inductive invariant: a stored Preparing is backed by a successful prepare in the history, and a stored v2 Ok implies Preparing. |
| Hooks.VerdictBacked | internal/controller/nodedisruption_controller.go:524-588 | The statuses a check round concludes with are backed by the history including the calls of that round. |
| Accounting.CountMovesOnlyAtGrantAndRemoval | internal/controller/nodedisruption_controller.go:140-170 | What a budget counts rises only when the write of a granting attempt lands, by one, and loses a disruption only when that was marked deleted and given up after a terminate pass. |
| Accounting.StoredCountIsCurrent | internal/controller/applicationdisruptionbudget_controller.go:434-454 | CurrentDisruptions of a Sync in a reachable world is that number. |
| Accounting.GrantedNeverOverlap | internal/controller/nodedisruption_controller.go:411-435 | With RejectOverlappingDisruption any two granted disruptions are disjoint in every reachable world, by recorded nodes and by selectors. |
| Overlap.OverlapDecidesExactly | internal/controller/nodedisruption_controller.go:411-435 | In every run, a completed attempt that got to the overlap check failed it if and only if another pending or granted disruption of the moment it listed them shares a node; then it did not grant, and rejected unless it is to be retried. |
| Overlap.SurvivorIsTriedLater | internal/controller/nodedisruption_controller.go:417-432 | Of two overlapping pending disruptions the later one tried survives: an attempt that grants one comes after an attempt that rejected the other, or after the other was given up. |
| Stories.OlderRejectedYoungerGranted | internal/controller/nodedisruption_controller.go:411-435 | A run from the empty cluster in which the older of two overlapping disruptions is rejected and the younger granted. |
| Lifecycle.ReachableInv | internal/controller/nodedisruption_controller.go:79-170 | Every reachable world: a disruption past Unknown lists exactly its selector's nodes and has the finalizer until given up; the worker's copy is the stored object while its version is. |
| Lifecycle.RunContinues | internal/controller/nodedisruption_controller.go:245-269 | Over any interleaving an object moves only Unknown, Pending, then Granted or Rejected for good, and its status never changes after the deletion mark. |
| Lifecycle.LeavesOnlyReleased | internal/controller/nodedisruption_controller.go:154-166 | An object with the finalizer stays in the cluster with it until a terminate pass gives it up. |
| Retry.AttemptsBounded | internal/controller/nodedisruption_controller.go:271-280 | With a deadline D and a retry interval I of at least 1, an object first tried at t0 <= D completes at most (D - t0 - 1) / I + 3 attempts, rounded down. |
| Schedule.AttemptsReached | internal/controller/nodedisruption_controller.go:271-344 | For every D, I and t0 a run with exactly that many attempts. |
| Retry.AttemptDates | internal/controller/nodedisruption_controller.go:304-337 | No completed attempt grants after its own deadline check failed or before DoNotGrantBefore, and one started after the deadline rejects. |
| Independence.StatusesDecideNothing | internal/controller/budget.go:109-116 | Two clusters that differ only in stored budget statuses, now and in every later status write, have the same disruptions, grants, attempts and prepare, ready and health calls. |
| Independence.TerminateNamesStoredNodes | internal/controller/applicationdisruptionbudget_controller.go:335-354 | A terminate call names the same nodes if and only if the stored watched nodes agree on the disrupted ones: no Sync precedes it. |
| Outcomes.VerdictExactly | internal/controller/nodedisruption_controller.go:491-548 | The budgets' checks fail if and only if a budget of the type that watches a covered node has no room, or one of them does not clear: a v2 one clears if its first record is preparing and ready is answered, or is Ok and not preparing; any other one if it has no health URL or the health hook is answered. |
| Outcomes.CheckExactly | internal/controller/nodedisruption_controller.go:550-608 | The status and the one call of one check: preparing if a v2 application has started to prepare now or before, Ok if it clears, and which hook is called with which nodes. |
| Outcomes.BlockedExactly | internal/controller/nodedisruption_controller.go:504-518 | When a budget has no room, the first such one listed is named alone and nobody is called. |
| Outcomes.StatusesExactly | internal/controller/nodedisruption_controller.go:524-547 | Otherwise there is one such status for each budget concerned, in listing order, and none other. |
| Outcomes.CallsExactly | internal/controller/nodedisruption_controller.go:524-608 | And one call for each of them that has a hook to call, in that order; prepare and ready name the sorted common nodes of budget and disruption. |
| Outcomes.InternalExactly | internal/controller/nodedisruption_controller.go:447-484 | The controller's own checks fail if and only if the deadline is past, or empty disruptions are rejected and no node is covered, or overlaps are rejected and there is one, or overlaps are not rejected and the type is not allowed; what they leave; and when they cannot be made. |
| Outcomes.AttemptExactly | internal/controller/nodedisruption_controller.go:304-344 | State, retry date, nodes, statuses and calls of an attempt: after a failure it is Pending if and only if retrying is on before the deadline, or some status it leaves, at any position, is preparing and the deadline is not past. |
| Outcomes.StateExactly | internal/controller/nodedisruption_controller.go:304-344 | The state of an attempt from its inputs alone. |
| Outcomes.RecordedIs | internal/controller/nodedisruption_controller.go:526-532 | What was recorded about a budget is its first entry, or nothing when there is none. |
| Outcomes.ReconcileRecordsNodes | internal/controller/nodedisruption_controller.go:396-403 | A reconcile always records the sorted nodes the selector matches now, and of a disruption that is not pending changes nothing else but Unknown to Pending. |
| Outcomes.ReconcileDecides | internal/controller/nodedisruption_controller.go:287-344 | And decides a pending one on these nodes and on all budgets brought up to date. |
| Outcomes.PassSucceedsExactly | internal/controller/nodedisruption_controller.go:351-393 | A terminate pass succeeds if and only if no application budget recorded preparing is unreadable, or exists with a v2 URL and does not acknowledge. |
| Outcomes.TerminateExactly | internal/controller/nodedisruption_controller.go:351-387 | It makes one terminate call for each recorded status that is to be told, in order, whatever the others answer, naming the common nodes. |
| Admission.VerdictIgnoresOrder | internal/controller/nodedisruption_controller.go:491-548 | The verdict passes if and only if every consulted budget tolerates and its check is Ok, whatever the listing order. |
| Admission.PreparingLostExactlyWhen | internal/controller/nodedisruption_controller.go:447-548 | A recorded Preparing is lost by an attempt if and only if an internal check other than the deadline failed, some budget refused, or the budget is no longer listed, supported, impacted or v2. |
| Admission.GrantNeedsHooks | internal/controller/nodedisruption_controller.go:524-588 | A granting attempt has asked every consulted budget: each tolerated, each v2 one was preparing and answered ready, each other one with a health hook answered it. |
| Admission.LegacyOkSkipsV2Hooks | internal/controller/nodedisruption_controller.go:554-587 | A budget recorded Ok without Preparing passes as a v2 budget with no call at all. |
| Admission.OkWithoutReadyExactly | internal/controller/nodedisruption_controller.go:550-588 | A v2 check is Ok without a ready call if and only if the budget was recorded Ok and not preparing. |
| Admission.GrantWithoutReadyExactly | internal/controller/nodedisruption_controller.go:550-588 | A granting attempt sends a consulted v2 budget no ready call if and only if that was recorded before. |
| Stories.GrantedUnprepared | internal/controller/nodedisruption_controller.go:524-588 | A run in which a disruption of a v2 budget's nodes is granted and only a health hook was ever called: the URL came while the grant waited for its date. |
| Stories.GrantedWhenReady | internal/controller/nodedisruption_controller.go:550-588 | A run from the empty cluster in which a v2 application answers prepare, then ready, and the disruption is granted, with exactly these calls and attempts. |
| Admission.TerminatedBudgetsAcknowledged | internal/controller/nodedisruption_controller.go:347-393 | A terminate pass that succeeds has a successful terminate call for every recorded budget that must terminate. |
| Admission.TerminatedExactly | internal/controller/nodedisruption_controller.go:351-387 | Exactly the application budgets recorded preparing that still exist with a v2 URL are called. |
| Admission.AttemptFailsExactly | internal/controller/nodedisruption_controller.go:294-302 | An attempt gets no outcome if and only if the selector, a list, some budget's Sync or the overlap listing failed. |
| Admission.SyncFailureStopsAttempt | internal/controller/budget.go:109-114 | One budget that fails to sync, wherever it is listed, stops the attempt. |
| Admission.LostClaimFailsSync | pkg/resolver/resolver.go:167-181 | One lost claim, or one in an unknown phase, fails the Sync of an application budget that selects it. |
| Admission.OverlapFailsBoth | internal/controller/nodedisruption_controller.go:417-432 | While both are pending, each of two overlapping disruptions would fail its check, whichever is older. |
| Admission.TypeCheckedExactlyWithoutOverlap | internal/controller/nodedisruption_controller.go:469-481 | A type that is not allowed is turned away if and only if the overlap check is off. |
| Admission.GrantDates | internal/controller/nodedisruption_controller.go:308-315 | A grant was decided neither after the deadline nor before DoNotGrantBefore. |
| BudgetSpec.SyncCanonical | internal/controller/applicationdisruptionbudget_controller.go:198-216 | A Sync leaves the strictly increasing list of exactly the selected nodes, a count equal to the granted entries and to the number of granted touching disruptions, an entry for exactly the touching ones, and as DisruptionsAllowed the maximum less that count, or the rounded smaller one of both differences for a node budget. |
| Syncs.WatchExactly | internal/controller/applicationdisruptionbudget_controller.go:402-415 | What a budget watches: the nodes of its scheduled pods and the nodes all terms of the volumes of its bound claims accept, or the nodes it selects; and exactly when that cannot be told. |
| Syncs.SyncFailsExactly | internal/controller/applicationdisruptionbudget_controller.go:417-456 | A Sync fails if and only if that cannot be told, disruptions cannot be listed, or one past Unknown has a selector that is invalid or whose nodes cannot be listed. |
| Syncs.ClaimExactly | pkg/resolver/resolver.go:161-182 | A claim stops a Sync if and only if it is lost, in an unknown phase, or bound to a volume that cannot be placed; a pending one does not. |
| Syncs.VolumeExactly | pkg/resolver/resolver.go:184-228 | When a volume cannot be placed, and on which nodes it may be. |
| Syncs.SelectionExactly | pkg/resolver/resolver.go:233-254 | A selector names exactly the nodes it matches, none when it is empty, and fails exactly when it is invalid or nodes cannot be listed. |
| Syncs.TouchingInOrder | internal/controller/applicationdisruptionbudget_controller.go:427-456 | The reported disruptions are the touching ones in listing order. |
| Syncs.TouchesExactly | internal/controller/applicationdisruptionbudget_controller.go:427-447 | A disruption touches a budget if and only if it is past Unknown and its selector matches a watched node. |
| Syncs.AllInSyncExactly | internal/controller/budget.go:77-117 | All budgets, application budgets first, each with its own spec and the status of its Sync, or nothing exactly when a list or a Sync fails. |
| BudgetSpec.SyncIgnoresListing | internal/controller/nodedisruptionbudget_controller.go:270-309 | Permuting or repeating listed objects changes a Sync only by permuting the reported disruptions. |
| BudgetSpec.SyncOverwritesStatus | internal/controller/nodedisruptionbudget_controller.go:186-209 | What a Sync computes does not depend on the stored status, so a second Sync on the same cluster changes nothing. |
| BudgetSpec.ToleranceIsRoom | internal/controller/nodedisruptionbudget_controller.go:212-222 | A budget in sync is impacted by exactly the sets that meet its nodes, and tolerates exactly the demands that fit its capacity less its count, float64 included. |
| Rounding.RoundIsNearestEven | internal/controller/nodedisruptionbudget_controller.go:182 | The rounding is to the nearest multiple of the spacing, ties to even. |
| Rounding.RoundMonotone | internal/controller/nodedisruptionbudget_controller.go:182 | Rounding is monotone. |
| Rounding.MinOfRounded | internal/controller/nodedisruptionbudget_controller.go:182 | The minimum of the rounded values is the rounded minimum, and the exact one within 2^53. |
| BudgetController.ComputeDisruptionsAllowed | internal/controller/nodedisruptionbudget_controller.go:179-183 | The allowed disruptions are the rounded minimum of both differences, exact within 2^53. |
| BudgetController.BudgetResolver.GetSelectedNodes | internal/controller/applicationdisruptionbudget_controller.go:402-415 | Returns the union of the nodes of pods and claims, or the selected nodes, or fails with either selection. |
| BudgetController.BudgetResolver.ResolveDisruption | internal/controller/applicationdisruptionbudget_controller.go:417-456 | The loop counts the granted and reports all touching disruptions past Unknown in listing order, and fails with the listing or any selector. |
| BudgetController.BudgetResolver.Sync | internal/controller/nodedisruptionbudget_controller.go:186-209 | Replaces the whole status by what the cluster says, or fails and leaves it alone. |
| BudgetController.BudgetResolver.IsImpacted | internal/controller/nodedisruptionbudget_controller.go:212-215 | Whether the stored watched nodes meet the set. |
| BudgetController.BudgetResolver.TolerateDisruption | internal/controller/nodedisruptionbudget_controller.go:218-222 | Whether the stored room covers one disruption (application budget) or the watched nodes of the set (node budget). |
| BudgetController.BudgetResolver.CallHook | internal/controller/applicationdisruptionbudget_controller.go:249-319 | One call at most, naming the watched disrupted nodes; node budgets and an empty health URL answer yes without one. |
| Types.RefsIdentify | internal/controller/applicationdisruptionbudget_controller.go:233-239 | References tell budgets apart by kind, namespace and name, and budgets from disruptions. |
| BudgetController.GetAllBudgetsInSync | internal/controller/budget.go:77-117 | Every listed budget, application budgets first, each brought up to date, or nothing. |
| BudgetController.ListBudgets | internal/controller/budget.go:77-107 | One distinct resolver for each listed budget, or a failure with either list. |
| BudgetController.SyncEach | internal/controller/budget.go:109-116 | Syncs all in place, or fails if and only if one of them does. |
| BudgetReconcilers.BudgetReconciler.Reconcile | internal/controller/nodedisruptionbudget_controller.go:68-113 | Fills in default types, syncs, and writes the status only if it moved; a missing budget is no error. |
| BudgetReconcilers.ReconciledExactly | internal/controller/nodedisruptionbudget_controller.go:87-110 | Field by field: the types become the default ones if and only if there were none and the write was taken, the status is what a Sync computes once the reconcile went through, all else stays; and exactly when it goes through. |
| BudgetReconcilers.SettledSupportsSomething | internal/controller/applicationdisruptionbudget_controller.go:101-106 | With default types configured, a budget that went through a reconcile supports some type. |
| BudgetReconcilers.ReconcileKeepsSpec | internal/controller/applicationdisruptionbudget_controller.go:101-106 | A reconcile changes the spec only by filling in types where there are none. |
| BudgetReconcilers.ReconcileSettles | internal/controller/applicationdisruptionbudget_controller.go:117-125 | After a successful reconcile the status is in sync, and another one on the same cluster writes nothing. |
| BudgetReconcilers.ReconcileIsStep | internal/controller/nodedisruptionbudget_controller.go:87-110 | Whatever a budget reconcile writes is a step of the protocol under which every budget with types keeps its bound. |
| Reconciler.SingleNodeDisruptionReconciler.Sync | internal/controller/nodedisruption_controller.go:396-403 | Records the sorted nodes of the selector, or leaves the object alone. |
| Reconciler.SingleNodeDisruptionReconciler.Reconcile | internal/controller/nodedisruption_controller.go:235-242 | Ends with the status and calls of the specified outcome; a failure has called nothing. |
| Reconciler.SingleNodeDisruptionReconciler.TryTransitionState | internal/controller/nodedisruption_controller.go:245-269 | Unknown becomes Pending, Pending is tried, other states stay. |
| Reconciler.SingleNodeDisruptionReconciler.TryTransitionToGranted | internal/controller/nodedisruption_controller.go:287-344 | Ends with the specified state, statuses and retry date; a failure changes and calls nothing. |
| Reconciler.SingleNodeDisruptionReconciler.ValidateOverlappingDisruption | internal/controller/nodedisruption_controller.go:411-435 | Fails if and only if some other pending or granted disruption shares a node. |
| Reconciler.SingleNodeDisruptionReconciler.ValidateWithInternalConstraints | internal/controller/nodedisruption_controller.go:447-484 | Deadline, empty, overlap and type checks in this order, overlap ending the round. |
| Reconciler.SingleNodeDisruptionReconciler.ValidateWithBudgetConstraints | internal/controller/nodedisruption_controller.go:491-548 | Refines the two phases: no hook before everybody tolerates; then every consulted budget is asked once, failures or not, with one status each in order. |
| Reconciler.SingleNodeDisruptionReconciler.CheckTolerance | internal/controller/nodedisruption_controller.go:495-518 | Stops at the first refusal and reports it, otherwise returns exactly the consulted budgets in order. |
| Reconciler.SingleNodeDisruptionReconciler.CheckHooks | internal/controller/nodedisruption_controller.go:524-547 | Asks every one of them and fails if and only if one is not Ok. |
| Reconciler.SingleNodeDisruptionReconciler.V2HookCheck | internal/controller/nodedisruption_controller.go:550-588 | Prepare when nothing is recorded, ready when preparing, and the status each answer leaves. |
| Reconciler.SingleNodeDisruptionReconciler.LegacyHookCheck | internal/controller/nodedisruption_controller.go:590-608 | One health check, never preparing. |
| Reconciler.SingleNodeDisruptionReconciler.TerminateAllImpactedBudgets | internal/controller/nodedisruption_controller.go:347-393 | Visits every recorded status and fails if and only if one that may need it was unreadable or did not acknowledge. |
| Reconciler.FindRecorded | internal/controller/nodedisruption_controller.go:526-532 | The first status recorded for the budget, or the empty one. |
| Controller.NodeDisruptionReconciler.Reconcile | internal/controller/nodedisruption_controller.go:79-138 | The whole reconcile against the API server: what it stores under the name, what it sends, and that it touches nothing else. |
| Controller.EffectExactly | internal/controller/nodedisruption_controller.go:79-170 | Field by field: when the finalizer is added or given up, when the object leaves, when the status is written and to what, what is called, and that nothing else changes. |
| Controller.NodeDisruptionReconciler.HandleFinalizer | internal/controller/nodedisruption_controller.go:140-170 | Adds the finalizer, or terminates and removes it, and goes on only for an object that has it and is not deleted. |
| Uninterrupted.ReconcileIsRun | internal/controller/nodedisruption_controller.go:79-170 | What that reconcile stores and sends, whichever reads fail and whether or not writes are refused, is what a run of the protocol's small steps stores and logs. |
| Uninterrupted.OutcomeUp | internal/controller/nodedisruption_controller.go:287-344 | Whatever reads fail, an attempt that gets an outcome gets the one it would have got with none failing. |
| Uninterrupted.PendingAttempt | internal/controller/nodedisruption_controller.go:287-344 | For a pending disruption: Start, a Sync of each budget, Decide and a Commit that lands or is refused settle exactly the specified outcome. |
| Uninterrupted.SyncLoop | internal/controller/budget.go:109-116 | Syncing one by one gets through with every copy up to date, or stops at a budget that fails. |
| Watches.MapFunc | internal/controller/nodedisruptionbudget_controller.go:131-155 | Requests exactly the listed budgets the object wakes; a failed list wakes nobody. |
| Watches.RequestsInOrder | internal/controller/nodedisruptionbudget_controller.go:143-152 | One request for each listed budget the object wakes, in listing order. |
| Watches.WakesExactly | api/v1alpha1/applicationdisruptionbudget_types.go:114-137 | A disruption wakes every budget; a node the node budgets, a pod or claim the application budgets of its namespace, whose selector is valid, not empty and matches its labels. |
| Watches.NodeEventsWake | api/v1alpha1/nodedisruptionbudget_types.go:65-82 | If creating, changing or deleting a node changes what a Sync of a node budget computes, its old or new version wakes the budget. |
| Watches.NodeArrivalsWakeExactly | api/v1alpha1/nodedisruptionbudget_types.go:65-82 | For creations and deletions: if and only if. |
| Watches.PodEventsWake | api/v1alpha1/applicationdisruptionbudget_types.go:114-137 | The same completeness for application budgets and pods, namespace included. |
| Watches.ClaimEventsWake | api/v1alpha1/applicationdisruptionbudget_types.go:114-137 | And for claims, failures to sync included. |
| Watches.DisruptionEventsWakeAll | api/v1alpha1/applicationdisruptionbudget_types.go:130-133 | A change of a disruption wakes every budget. |
| Watches.NodeEventsMatterExactly | api/v1alpha1/applicationdisruptionbudget_types.go:114-137 | No node event wakes an application budget, and its Sync is different after one if and only if it watches only one of the two versions of the node (by its pods or the terms of its volumes), or a disruption past Unknown that touches it nowhere else is covered by the watched version before or after but not both. |
| Watches.NodeEventsMissApplicationBudgets | api/v1alpha1/applicationdisruptionbudget_types.go:134-136 | An example: relabelling a node changes the status of an application budget and wakes none. |
| Resolver.NewNodeSetFromStringList | pkg/resolver/resolver.go:44-50 | The set of exactly the listed names. |
| Resolver.NodeSetToStringList | pkg/resolver/resolver.go:52-60 | The one strictly increasing list of the members, in whatever order the set is walked. |
| Sorting.LeExactly | pkg/resolver/resolver.go:52-60 | The order of the list: a string comes first if it begins the other or has the smaller character where they first differ. |
| Sorting.SortedUnique | pkg/resolver/resolver.go:52-60 | A strictly increasing list is determined by its members. |
| Resolver.GetNodeFromNodeSelector | pkg/resolver/resolver.go:233-254 | The names of exactly the matching nodes; none for the empty selector; an error for an invalid one or a failed list. |
| Resolver.GetNodesFromNamespacedPodSelector | pkg/resolver/resolver.go:63-86 | The nodes of exactly the matching scheduled pods of the namespace, with the same exceptions. |
| Resolver.GetNodesFromNamespacedPVCSelector | pkg/resolver/resolver.go:145-231 | The nodes of the volumes of exactly the matching bound claims; fails if and only if some matching claim is lost, in an unknown phase, or bound to a volume that cannot be resolved, or a list fails. |
| Resolver.GetNodesForVolume | pkg/resolver/resolver.go:184-228 | The nodes of one volume's translated affinity, none without one. |
| Resolver.NodeSelectorAsSelector | pkg/resolver/resolver.go:109-143 | All expressions of all terms in order, or an error if one of them is invalid. |
| Labels.OperatorsMean | pkg/resolver/resolver.go:87-107 | In allows one of the values, NotIn and DoesNotExist are the opposites of In and Exists, and the two first need values, the two others none. |
| Labels.MatchLabelsAreExpressions | pkg/resolver/resolver.go:233-245 | A label to match is shorthand for an In expression with one value. |
| Resolver.TranslationIntersectsTerms | pkg/resolver/resolver.go:121-140 | The translated selector accepts exactly the labels that every term accepts. |
| Resolver.TranslationMeaning | pkg/resolver/resolver.go:109-143 | It agrees with the affinity on a node if and only if the terms with expressions agree on it, so one-term affinities keep their meaning; it never accepts more. |
| Resolver.TranslationLosesAlternatives | pkg/resolver/resolver.go:121-140 | A two-term affinity that accepts a node its translation does not. |
| Resolver.VolumeNodes | pkg/resolver/resolver.go:205-227 | A volume's nodes are accepted by its affinity, and include the nodes all terms accept. |

## Left out

- Metrics, logging, events, flags, manager setup, CRDs, charts: no effect on decisions.
- HTTP, JSON, URLs and timeouts of the hooks, and the generated clients: a call is its kind, budget, nodes and answer.
- Reason texts.
- MatchFields in volume affinity, which goes through a printed requirement that another library parses again.
- Syntax checks of label keys and values: a selector is invalid only through its operators and numbers of values.
- Stale caches, leader election, work queues and requeues: a reconcile may come at any time or not at all, so nothing is claimed to happen eventually.
- Errors of single reads in the protocol: they are Abort, which ends an attempt at any point without a write.
- Wrap-around of 64-bit integers in the subtractions of the budgets: they are unbounded here.
- The Budget interface is one class over a tagged union, dispatching on the budget it holds.
- The cached hook client of an application budget: it only saves building it again.
- The loops of ValidateWithBudgetConstraints and GetAllBudgetsInSync are methods of their own, called in the same order.
- Budgets are listed in any order in the protocol, application budgets first in the code.
- The crash of a watch filter whose selector does not translate (a call on a nil selector) is an error result in Watches.MapFunc.

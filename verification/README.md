# Verified model of the operation ledger

This project models the part of the service that decides what happens to infrastructure: the
operation ledger, the Terraform activities that run beside it, the apps built on top of it, the cost
history read back from it, and three smaller cores (filtered paging, the plan diff, team revisions).
It is written in Dafny; `dafny verify dfyconfig.toml` checks all of it.

## How the model is laid out

- `LedgerModel` gives the tables as values and every public ledger function as a function on them.
  `LedgerStore` gives the same functions as methods of a class that changes its fields step by step
  and rolls back; each method is proved to do exactly what the value model says, and each app method
  to take the very step that the app model takes (`StoreSteps`).
- `LedgerRuns`, `LedgerSafety`, `LedgerTheorems` make runs out of those functions, interleaved freely:
  duplicate dispatch, late results, timeouts and operators' decisions. Every step is at most two
  primitive changes, and every primitive change keeps the ledger's invariants.
- `Records` says what one step does to one operation's record. `Lifecycles`, `Reservations`, `Expiry`,
  `Landings`, `Repeats`, `Acceptance`, `Reconciliation`, `Budgets`, `BudgetGuard`, `References`,
  `DriftErasure` prove one promise each over all runs. Where a promise fails, they hold the exact
  condition and a run.
- `CostHistory` and `CostSeries` prove that the replayed history is what the ledger held.
- `Activities`, `ActivitySafety`, `ApplyEnds`, `PlanEnds`, `PlanKept`, `PlanReview`, `PlanTruth`,
  `LatePlanner` add the activities and the plan files: any number of jobs, each of which may go on
  after its timeout, over one plan file per resource. Every play of that system is a run of the
  ledger.
- `AppModel`, `AppRuns` add apps. Requests look at the ledger at one moment and are accepted at a
  later one. `AppLedger`, `AppInvariants`, `AppSafety`, `AppSteps` prove the invariants;
  `AppStates`, `AppTheorems`, `AppReplays`, `AppProgress`, `Failovers`, `Approvals`, `GateProgress`,
  `Revival`, `OwnDestroys` hold the results; `Continuations` and `RevivedReplica` build runs.
- `Workflows` has the two polling loops inside a history of apps, `Paging` the scan-and-page loop,
  `PlanDiff` the tree comparison, and `Teams` the team store.

## What turned out not to hold

Each of these is proved, with a run or a witness, next to the exact condition under which the promise
does hold.

- An uncertain operation cannot always be resolved. A destroy copies the whole resource row, so it
  can carry an earlier operation's reconciliation record, and then it is stuck for ever
  (`Reconciliation`).
- The budget can be exceeded: acceptance does not look again whether the row was destroyed after
  validation (`Budgets`). Accepting a checked deploy is safe for the budget if and only if its row is
  not destroyed or it costs nothing (`BudgetGuard`).
- A ready resource can refer to a destroyed one, exactly when a source's destroy is accepted while a
  deploy that reads it is past its execute (`References`).
- The changes applied can differ from the changes reviewed, although the digest is the approved one:
  a planner whose timeout was recorded may write between the two reads of the next planner
  (`LatePlanner`). A planner's record will be true in every continuation if and only if, while it has
  read nothing, no other planner of its resource has still to write; the condition for a planner
  that has read something is given too (`PlanTruth`).
- A destroyed app can have a ready resource (`RevivedReplica`). What the app deployed itself never
  comes back; what no caller touched comes back in some continuation if and only if the app never
  deployed it (`OwnDestroys`); and for what callers did change, an idle resource can become ready
  again if and only if its row is not destroyed or a caller may still act on an earlier read that
  nothing was accepted after (`Revival`). It is not enough that the app never deployed it: a resource
  that a caller deployed and destroyed again is gone for good (`RevivedReplica.CallersOwnExample`).
- A late teardown timeout turns a destroyed app into a failed one (`AppTheorems`).
- The rollout's router points to the reported primary only if the request wired all its `primary_*`
  references to one replica (`Failovers`).
- `_diff_paths` misses changes where containers meet scalars or mappings meet lists: exactly when
  something changes and the way to it leaves the keys the function follows, or ends at a place that
  holds a container in one version (`PlanDiff.ReportsAreExact`).

The repository's README (line 220) says there is no reconciliation endpoint; the code has one and the
model follows the code. `reconcile` is documented as releasing the reservation (app/ledger.py:771-774);
in the code, and here, an operation reconciled as succeeded keeps the requested amount.

## Model

| member | source | states |
|---|---|---|
| LedgerStore.Ledger.SumReserved | app/ledger.py:148-159 | the loop over the rows returns what the zone's undestroyed resources hold, one left out on request |
| LedgerStore.Ledger.RestoreReservation | app/ledger.py:177-192 | a deploy's row gets its previous amount back; nothing else of the row changes |
| LedgerStore.Ledger.ReleasePlan | app/ledger.py:195-208 | the plan is failed and flagged, told by one event, and its reservation is given back |
| LedgerStore.Ledger.RecordDriftCheck | app/ledger.py:703-721 | a finished check writes its verdict and time and leaves the rest of the row alone |
| LedgerStore.Ledger.MarkSucceeded | app/ledger.py:724-749 | the row becomes the operation's definition, keeping creation time and provenance |
| LedgerStore.Ledger.Claim | app/ledger.py:684-696 | a snapshot is handed out exactly when the phase was waiting, and it is what is stored |
| LedgerStore.Ledger.Finish | app/ledger.py:752-768 | with the stored state unchanged the snapshot is written back and settles its row; otherwise nothing changes |
| LedgerStore.Ledger.Interrupted | app/ledger.py:808-829 | a waiting or running phase becomes uncertain, a check failed; any other state is left |
| LedgerStore.Ledger.AnyBadReference | app/ledger.py:223-236 | the loop finds a source that is not ready or is being destroyed if and only if there is one |
| LedgerStore.Ledger.ExecuteOne | app/ledger.py:593-616 | digest, idempotency, expiry, state and references are answered in that order; expiry is committed |
| LedgerStore.Ledger.ExecuteTogether | app/ledger.py:646-656 | every item in one transaction, rolled back at the first refusal, which is named with its index |
| LedgerStore.Ledger.ExecuteMany | app/ledger.py:642-659 | the transaction, and when it stopped at a plan too old, a second one that fails that plan |
| LedgerStore.Ledger.Discard | app/ledger.py:662-681 | a planned operation is failed and released; a second discard changes nothing |
| LedgerStore.Ledger.Reconcile | app/ledger.py:771-805 | an uncertain operation without a record lands as found, told by two events |
| LedgerStore.Ledger.StampDriftRefusal | app/ledger.py:577-590 | only the drift fields of the row change |
| LedgerStore.Ledger.Check | app/ledger.py:341-379 | the refusal is the first objection in the source's order, or none |
| LedgerStore.Ledger.Insert | app/ledger.py:380-427 | the operation, its event and the row with the reserved cost; a check leaves the row alone |
| LedgerStore.Ledger.AcceptInside | app/ledger.py:313-428 | answers as the value model does, expiring a blocking plan on the way |
| LedgerStore.Ledger.Accept | app/ledger.py:251-263 | the same in a transaction of its own: a refusal leaves no trace, not even the expiry |
| LedgerStore.Ledger.AcceptTogether | app/ledger.py:883-891 | several acceptances in one transaction: all of them, or the tables as they were |
| LedgerStore.Ledger.AcceptApp | app/ledger.py:872-911 | a known key answers with its app when the body is the same and refuses another body; a new key makes the app and all its replicas, or nothing; it is the step of the app model |
| LedgerStore.Ledger.AcceptRouter | app/ledger.py:954-970 | nothing when there is a router or an error; else the router and its link in one step, which is the step of the app model |
| LedgerStore.Ledger.AcceptFailover | app/ledger.py:1004-1052 | a known key returns its own entry's operation when the target is the same and refuses another; a changed app is refused; else router update and history together, as in the app model |
| LedgerStore.Ledger.AcceptTeardown | app/ledger.py:1055-1118 | a known key returns its own entry's router destroy; a changed app is refused; else the teardown, with the router's destroy when there is one to destroy, as in the app model |
| LedgerStore.Ledger.AcceptTeardownReplicas | app/ledger.py:1121-1146 | all destroys are linked, or nothing happens; once linked or failed nothing happens; it is the step of the app model |
| LedgerStore.ReachableIsOrderly | app/ledger.py:195-208 | every reachable ledger meets what these methods require: no planned operation is a drift check |
| StoreSteps.LinkAllIsTogether | app/ledger.py:883-891 | one transaction of several acceptances comes to the same tables and operations as the app model says |
| LedgerModel.FindKey | app/ledger.py:127-138 | what is found carries this caller and key |
| LedgerModel.FindBusy | app/ledger.py:324-328 | what is found is an unfinished operation of the resource |
| LedgerSafety.NextMakes | app/ledger.py:251-829 | every public function is at most two legal primitive changes of the tables |
| LedgerSafety.UnblockedIsEnterable | app/ledger.py:324-340 | after the lazy expiry the resource is free, and nothing validated has changed |
| LedgerSafety.EveryRunIsSound | app/ledger.py:251-829 | every reachable ledger satisfies all invariants, whatever interleaves |
| LedgerTheorems.RunsGoForward | app/ledger.py:684-829 | an operation keeps its terms and only moves down a strictly falling rank |
| LedgerTheorems.FenceIsAToken | app/ledger.py:752-756 | comparing the state lets a result through exactly when the stored record is the claim's snapshot |
| LedgerTheorems.EachPhaseIsClaimedOnce | app/ledger.py:684-696 | in every run each phase of each operation is claimed at most once |
| LedgerTheorems.LateResultsChangeNothing | app/ledger.py:752-756 | after a recorded timeout no result of that phase changes anything, whatever happens between |
| LedgerTheorems.OneOperationPerResource | app/ledger.py:324-340 | no resource ever has two unfinished operations |
| LedgerTheorems.TrailTellsState | app/ledger.py:88-92 | folding an operation's events gives its state; every prefix is a legal path, at most eight long |
| LedgerTheorems.EventsOnlyGrow | app/ledger.py:66-92 | events are never removed, and a step that leaves the operations tells nothing about any |
| LedgerTheorems.KeysNameOneOperation | app/ledger.py:122-138 | a caller's key names one operation for ever; another body under it is refused |
| Repeats.ExecuteRepeats | app/ledger.py:593-616 | after an accepted execute the same one is idempotent while the operation is executing or succeeded and refused afterwards, and another digest never matches, in every later ledger |
| Repeats.ReconcileRepeats | app/ledger.py:776-790 | a decision stands in every later ledger: the same is idempotent, the other is refused |
| Repeats.FlagsAreTold | app/ledger.py:195-208 | in every run an operation's discarded and expired flags are what its events tell |
| Repeats.DiscardIsExact | app/ledger.py:662-681 | in every run a discard is idempotent iff one was recorded, accepted iff the operation is planned, and otherwise refused |
| Acceptance.AcceptedExactly | app/ledger.py:313-379 | a validated request under a new key is accepted iff its placement holds, at most an expired plan is in the way, the resource is unchanged and ready for a check, the budget holds, a destroy takes nothing from a ready resource and every source can be referred to |
| Acceptance.EventsAreSigned | app/ledger.py:88-92 | every event names who took the step, the worker or the person who asked, and when |
| Acceptance.EventsAreInOrder | app/ledger.py:88-92 | in every run the events are in order of time |
| Expiry.PlannedStays | app/operation_activities.py:395-402 | in every run an operation that is still planned shows what its planner recorded: digest, changes, drift, objects and the time |
| Expiry.ExecuteExpiresExactly | app/ledger.py:167-169 | in every run, while a plan recorded at p is still planned, an execute naming its digest finds it too old iff more than the maximum age has passed since p |
| Expiry.AcceptExpiresExactly | app/ledger.py:324-340 | another request for the resource answers that it is busy iff the plan is not too old; if it is accepted, the plan is failed as expired |
| LedgerTheorems.BirthIsKept | app/ledger.py:724-749 | over any run a resource keeps zone and creation time, and its provenance is never forgotten |
| Lifecycles.CarryThrough | app/ledger.py:593-768 | an accepted operation can be planned, approved and applied in five steps that touch nothing else |
| Landings.ApplyLands | app/ledger.py:724-749 | from the recorded plan over any run to the apply: the row has the reported outputs, the plan's managed objects (none after a destroy), the accepted definition, and is in sync at that time |
| Landings.FoundLands | app/ledger.py:771-805 | the same when an operator finds that it succeeded, without outputs and with unknown drift |
| Landings.CheckLands | app/ledger.py:703-721 | a check's result: drifted exactly when something was found; findings and time are on the row and nothing else changes |
| Landings.FailedCheckLands | app/ledger.py:703-721 | a failed check leaves the status unknown, the time, and no findings |
| Landings.RefusalLands | app/ledger.py:577-590 | a check that could not be accepted leaves the time, the refusal and, when asked, an unknown status, and nothing else |
| Landings.RowsAreLeft | app/ledger.py:724-749 | in every run a row that is not pending is what some successful operation left: state, definition, outputs and objects |
| Reservations.FailedDeploysRestore | app/ledger.py:177-221 | a deploy holds the larger amount until it ends; failed in any way it leaves the old amount and definition |
| Reconciliation.ReconcileResolvesExactly | app/ledger.py:776-790 | an uncertain operation is resolved if and only if it has no record and could have had that outcome |
| Reconciliation.ResolvableIffNothingInherited | app/policy.py:369-370 | whatever happens after acceptance, it stays resolvable exactly if it inherited no record |
| Reconciliation.StuckForever | app/ledger.py:778-782 | an uncertain operation with an inherited record never moves again and keeps its resource busy |
| Reconciliation.StuckExample | app/ledger.py:381-395 | such an operation is reachable |
| Budgets.AcceptanceIsCounted | app/ledger.py:355-370 | acceptance adds the reservation to the zone's total if and only if the row is not destroyed |
| BudgetGuard.BudgetRefusesExactly | app/ledger.py:355-370 | a budget-checked deploy nothing else objects to is refused over the budget iff what the zone would hold, with the legacy amount, is over the limit |
| Budgets.BudgetHolds | app/ledger.py:358-370 | with every costly deploy admitted on an undestroyed row the total never exceeds the limit, in any run (the exact condition: `BudgetGuard`) |
| BudgetGuard.AcceptanceIsSafeExactly | app/ledger.py:358-370 | accepting a checked deploy keeps the total within the limit in every admitted continuation if and only if its row is not destroyed or it costs nothing |
| Budgets.BudgetBrokenExample | app/policy.py:342-345 | a run of checked deploys over the limit: the row was destroyed between validation and acceptance |
| References.LinksHold | app/ledger.py:223-248 | if no source is destroyed under a running deploy, no ready resource refers to one that is not ready |
| References.OwnDestroyIsNotRefused | app/ledger.py:371-379 | then no ready, idle resource's own destroy is refused over references |
| References.DestroyIsSafeExactly | app/ledger.py:371-379 | accepting a destroy is safe for all futures if and only if no running deploy reads the resource |
| References.DanglingExample | app/ledger.py:607-612 | a ready resource that refers to a destroyed one is reachable |
| DriftErasure.ChecksAreInvisible | app/ledger.py:419-427 | erasing checks and stamps from a run leaves a run with the same resources, other operations and trails |
| DriftErasure.LeanRunKeepsTime | app/drift.py:44-52 | and the erased run keeps the order of time |
| DriftErasure.ChecksOnlyLook | app/operation_activities.py:265-324 | a check is never planned, applied or uncertain |
| CostHistory.Replay | app/cost_history.py:65-106 | the loop computes the start value and the changes of the replay rules |
| CostHistory.HistoryAgrees | app/cost_history.py:65-106 | for every run and moment the changes up to it add up to what the ledger counted then |
| CostHistory.NoCorrectionIsNeeded | app/cost_history.py:104-106 | the correcting step never fires for a resource the ledger created, and it starts at nothing |
| CostHistory.RealOfIsFiltered | app/cost_history.py:70-70 | leaving out the checks and taking the resource's operations commute |
| CostSeries.ReplayEndsAtRow | app/cost_history.py:66-69 | whatever the operations say, the replay ends at what the row holds |
| CostSeries.Book | app/cost_history.py:151-158 | after a resource's changes every day's bucket sum shows them up to that day, and its mover has the time of its latest change in the period |
| CostSeries.Build | app/cost_history.py:141-179 | each day shows the resources' values at its end, the last the current total; each resource that moved is one mover, by how much and when last, and no other is |
| CostSeries.EveryDayIsExact | app/cost_history.py:172-179 | for every run, each day shows what the zone held at its end, and the final override changes nothing |
| Activities.PlaysAreRuns | app/operation_activities.py:327-488 | whatever jobs, people and timeouts do, the ledger sees one of its own runs, in the same order of time |
| ActivitySafety.AppliedAtMostOnce | app/operation_workflow.py:31-44 | an apply is started at most once for an operation, however often its phase is dispatched |
| ActivitySafety.OnlyTheApprovedPlanIsApplied | app/operation_activities.py:404-417 | the file applied has the recorded digest, and an execute naming it was accepted |
| ActivitySafety.ApprovalComesFirst | app/operation_activities.py:404-417 | when an apply may start, its approval is in the past and none was started before |
| ApplyEnds.BrokenAppliesStayInDoubt | app/operation_activities.py:466-475 | in every play an operation whose apply broke, or whose job raised anywhere else, is applying, uncertain or reconciled; its job reports nothing but uncertain, and the row keeps the reservation until an operator decides |
| ApplyEnds.UntouchedAppliesFail | app/operation_activities.py:405-441 | an apply that changed nothing (plan gone or changed, or refused before any change) is reported as failed and never as uncertain |
| ApplyEnds.EndsAreRecorded | app/operation_activities.py:404-475 | once an applying job is over and did not time out: in doubt, failed or succeeded, by which of the three it was |
| ApplyEnds.PlansAreRecorded | app/operation_activities.py:395-402 | a plan that the fence lets through is recorded with the digest measured, the changes shown and the drift and objects found |
| ApplyEnds.OutputsAreRecorded | app/operation_activities.py:442-465 | an apply that the fence lets through succeeds, with its outputs on the row |
| ApplyEnds.ChecksAreRecorded | app/operation_activities.py:265-324 | a drift check that the fence lets through leaves drifted or in sync by what it found, unknown when it failed |
| PlanEnds.PlansEndTruly | app/operation_activities.py:342-402 | in every play, once a planning job is over and did not time out, its operation has failed if anything raised and else was planned; a check is finished |
| PlanKept.PlansAreKept | app/operation_activities.py:404-442 | where no file was lost and no phase interrupted, a waiting operation's file is the plan on record, an apply finds it, and a job that applied or failed leaves none behind |
| PlanKept.FailuresLeaveThePlan | app/operation_activities.py:27-40 | in every play, while an operation is planned or queued to apply, no failing job removes its plan |
| PlanReview.OneWriter | app/operation_activities.py:27-40 | two jobs write one resource's plan only after a planner was left behind |
| PlanReview.ReviewedIsApplied | app/operation_activities.py:362-402 | on a resource where no planner was left behind, the changes applied are the changes reviewed (the exact condition: `PlanTruth`) |
| PlanTruth.RecordIsTrueExactly | app/operation_activities.py:351-402 | a planner's record will be true in every continuation if and only if it is steady: while it has read nothing, that no other planner of its resource has still to write |
| PlanTruth.SteadyPlansAreAppliedAsReviewed | app/operation_activities.py:404-417 | and where such a planner's plan is applied, the changes applied are the changes reviewed |
| LatePlanner.LatePlannerExample | app/operation_activities.py:351-402 | they may differ: a play in which they do |
| Approvals.BatchIsAllOrNothing | app/ledger.py:646-656 | the transaction leaves every named operation executing and nothing else touched, or it changes nothing at all |
| Approvals.ThenOnlyFailsIt | app/ledger.py:657-659 | the second transaction, whatever came between, fails the one plan found too old or changes nothing |
| Approvals.ApprovalMovesOn | app/apps.py:319-354 | approving exactly the gate's operations moves the app to executing all of them |
| GateProgress.ApprovalRepeats | app/apps.py:319-354 | while the app is executing the gate just approved, the gate names the same operations and the same approval again is refused nowhere and changes nothing |
| GateProgress.GateIsExact | app/apps.py:319-338 | there is something to approve exactly at a gate or while one is executed, and it is the whole group |
| AppSafety.DirectIsAllowed | app/apps.py:90-103 | a direct change that passed the member check concerns only what a freed app never deployed |
| AppSafety.DestroyedHoldsNothing | app/apps.py:245-277 | in a destroyed app everything the app deployed is destroyed |
| AppInvariants.NoRevival | app/ledger.py:1055-1146 | once a teardown has begun, nothing the app owns becomes ready again by the app |
| AppSteps.RouterIsDue | app/app_activities.py:12-25 | when the router is accepted every replica has succeeded and no teardown began, though the check is past |
| AppSteps.FailoverIsInformed | app/apps.py:474-526 | an accepted failover starts from the operation really deployed, with nothing of the router in flight |
| AppSteps.TeardownIsInformed | app/apps.py:533-576 | an accepted teardown finds every deploy finished and a router it skips down |
| AppSteps.ReplicasAreInformed | app/apps.py:601-614 | the accepted destroys name every replica still ready, and the router is down |
| AppSteps.EveryAppRunIsSound | app/ledger.py:872-1178 | every reachable app satisfies all app invariants, and every look still holds what it saw |
| AppStates.StatesAreExact | app/apps.py:245-316 | in every run each state of an app holds exactly when its operations are so: uncertain, failed, each gate, executing, ready, destroyed |
| AppTheorems.AppRunsAreRuns | app/ledger.py:872-1146 | every run of apps is a run of the ledger, in the same order of time |
| AppTheorems.DestroyedMeansGone | app/apps.py:245-277 | in a destroyed app what the app deployed is destroyed, and what is ready a caller deployed (exactly when that can be: `Revival`, `OwnDestroys`) |
| Revival.RevivesExactly | app/apps.py:90-103 | an idle resource of a destroyed app becomes ready in some continuation if and only if its row is not destroyed, or a caller may still act on a read that let him and that nothing was accepted after |
| OwnDestroys.RevivesUnlessDeployed | app/apps.py:245-277 | what the app deployed itself becomes ready in no continuation; what no caller changed does in some if and only if the app did not deploy it |
| OwnDestroys.DestroysAreEarned | app/apps.py:601-614 | what no caller changed and is to be destroyed, the app itself deployed |
| AppTheorems.ReadyIsReal | app/apps.py:280-309 | in a ready app the router's and every replica's resource is ready |
| AppTheorems.RouterComesLast | app/app_activities.py:12-25 | a router operation exists only after all replicas succeeded |
| AppTheorems.RouterGoesFirst | app/app_activities.py:63-91 | a replica's destroy exists only after the deployed router is gone, or there was none |
| AppTheorems.AppIsAllOrNothing | app/ledger.py:872-911 | every replica under its own operation and the app, or no change |
| AppTheorems.KeysNameOneApp | app/ledger.py:855-864 | a caller's key names one app for ever, and asking again under it changes nothing |
| AppReplays.AppReplays | app/ledger.py:855-864 | the app accepted under a key keeps the caller, key, body and wiring it was accepted with |
| AppReplays.FailoverReplays | app/ledger.py:1017-1030 | what is found under a failover's key in every later state is the accepted operation and its target |
| AppReplays.TeardownReplays | app/ledger.py:1055-1118 | what is found under a teardown's key in every later state is the router's destroy accepted with it, or none |
| AppTheorems.LateTimeouts | app/ledger.py:973-991 | a late rollout timeout never fails a ready or ending app; a late teardown timeout fails a destroyed one |
| AppProgress.ProgressIsMonotone | app/apps.py:280-316 | between any two moments a rollout's progress does not go back, except to failed, uncertainty aside |
| GateProgress.TeardownIsMonotone | app/apps.py:245-277 | between any two moments of one teardown attempt the teardown does not go back, except to failed, uncertainty aside |
| Failovers.RolloutPointsExactly | app/apps.py:216-221 | the first router points to the reported primary iff its primary references agree |
| Failovers.FailoverPoints | app/apps.py:454-471 | a failover's references point to its target whatever was deployed |
| Failovers.PrimaryIsReal | app/apps.py:224-231 | in every run the deployed primary references name the reported primary, with that exact exception |
| Failovers.PrimaryIsAReplica | app/apps.py:216-231 | in every run the reported primary is a replica the app has |
| Failovers.BackRestoresExactly | app/apps.py:454-471 | failing over and back restores the references iff they were wired oppositely |
| Failovers.RefsFollowPrimary | app/apps.py:474-526 | with two such replicas every router's references are a function of its primary |
| Failovers.OriginalRefsReturn | app/apps.py:474-526 | so in every run the first primary comes back with the original references |
| RevivedReplica.RevivedExample | app/apps.py:90-103 | a destroyed app with a ready resource it never deployed is reachable |
| RevivedReplica.CallersOwnExample | app/ledger.py:341-347 | a resource the app never deployed, which a caller deployed and destroyed, is gone for good |
| Workflows.ReturnSettles | app/app_activities.py:36-91 | however an acceptance returned, committed, refused or with nothing left to accept, the router, or the teardown attempt, is settled at every later moment |
| Workflows.SettledStays | app/app_activities.py:12-25 | in every run what is settled stays settled |
| Workflows.RouterFollowsAlways | app/app_activities.py:36-54 | in any history of apps, after an acceptance that returned, having committed, refused or found nothing left to do, the loop never finds a router needed |
| Workflows.ReplicasFollowAlways | app/app_activities.py:73-91 | likewise the loop of a teardown never finds that attempt's destroys needed |
| Workflows.ChecksAreExact | app/app_activities.py:12-70 | in every run the checks ask for a router, or for the replicas' destroys, exactly when one is due, and say ready exactly when the rollout's own router is deployed |
| Workflows.Rollout | app/operation_workflow.py:110-155 | the loop ends by a stated cycle, skips the sleep at most once, and ends with what was checked or written; it times out only after a week of waiting |
| Workflows.TearDown | app/operation_workflow.py:170-217 | the loop ends by a stated cycle, skips the sleep at most once per teardown attempt, and ends with what was checked or written; it times out only after a week of waiting |
| Workflows.WaitedIs | app/operation_workflow.py:151-153 | a fresh loop polls every five seconds for an hour and every thirty from then on |
| Workflows.RolloutEndsTruly | app/operation_workflow.py:121-150 | once the loop said ready or wrote its failure, the app has an error, a teardown or its own router deployed |
| Workflows.TearDownEndsTruly | app/operation_workflow.py:181-211 | a failure that the loop wrote settles the teardown attempt that was under way |
| Paging.ListFiltered | app/main.py:1161-1185 | a page shows exactly the matches among the rows it covers; its cursor is the last of them; it is short only when 500 rows were examined or none are left |
| Paging.FollowPages | app/main.py:1161-1185 | following the cursor yields every match once, in order, under a rising cursor, and ends |
| Paging.MatchingIsExact | app/main.py:1167-1175 | what the pages add up to is the matching resources and nothing else |
| PlanDiff.ReportsAreSound | app/operation_activities.py:151-181 | every reported path is at most three deep, renders, and differs or is marked unknown |
| PlanDiff.ReportsAreExact | app/operation_activities.py:151-181 | a changing place is reported at or above it if and only if the way to it, down to depth three or a True marker, stays on the keys followed and does not end at a container beside a scalar |
| PlanDiff.ReportsAreComplete | app/operation_activities.py:151-181 | every scalar change has a reported path at or above it when the kinds match |
| PlanDiff.MissedExample | app/operation_activities.py:158-167 | otherwise one can be missed |
| PlanDiff.KeyedPathsRender | app/operation_activities.py:139-148 | a path that starts with a key can be rendered |
| PlanDiff.RenderTellsApart | app/operation_activities.py:139-148 | two paths whose names have no dot or opening bracket render alike only if they are the same path |
| Teams.TeamStore.Write | app/team_store.py:88-119 | one more revision, which is the current row; revisions stay numbered from one |
| Teams.TeamStore.Stored | app/team_admin.py:438-457 | the row comes back iff the request names its revision; else the refusal says why |
| Teams.TeamStore.Create | app/team_admin.py:600-619 | only for a new name without errors; the first revision is active |
| Teams.TeamStore.Replace | app/team_admin.py:625-636 | written iff the current revision was named, there are no errors, every warning was acknowledged and the document changed; else the refusal says which |
| Teams.TeamStore.Revert | app/team_admin.py:647-661 | written iff the named revision is current, the old one is there and differs, there are no errors and every warning was acknowledged; the new one has its document |
| Teams.TeamStore.Archive | app/team_admin.py:664-682 | iff the revision matches, the team is active, and it is empty or forced |
| Teams.TeamStore.Unarchive | app/team_admin.py:685-697 | iff the revision matches, the team is archived, and there are no errors |
| Teams.TeamStore.ImportTeams | app/team_admin.py:748-822 | written iff every team is as the caller expects it and nothing that changes has errors or unacknowledged warnings; every changed team gets one revision, or nothing is written |
| Teams.TeamStore.Revisions | app/team_store.py:63-68 | a team's revisions below a number, newest first |
| Teams.SinceIsRunStart | app/team_store.py:29-42 | archived_since is the first archived revision after the last active one |
| Teams.SinceAfterWrite | app/team_store.py:29-42 | an edit while archived leaves it, archiving sets it, unarchiving ends it |
| Teams.NothingUnseen | app/team_admin.py:438-457 | a matching revision means the very row that was read, so nothing unseen is overwritten |

## Left out

- Time: one transaction has one timestamp; timestamps never go back within a run, and no two app steps share one.
- SHA-256 is modelled as injective and UUIDs as new; both are assumptions, not results.
- Amounts are exact natural numbers: floating-point sums and corrupt stored amounts are not modelled.
- Requests reach acceptance validated (existing resource, same placement); schema, catalog and tenancy rules behind that, and the placement re-check, are a yes or no.
- The checks an app request makes before its transaction are one read of the ledger; the transaction is a later, separate step.
- Comparing the plan's digest and starting the apply is one step, and so is `owns` with the unlink after it.
- An apply may start after its operation's timeout was recorded; what it then does to infrastructure is outside the ledger.
- An app's transient refusals, live group checks and access checks: a step that is refused is simply not taken.
- Events about apps carry no state and are not listed in the app model; operations' events are.
- The request remembered as `primary` on an app row is never read by the derived state and is not a field.
- Workflows.TearDown: ends only if teardowns are asked for finitely often, since each one may skip one more sleep; it also assumes that a timeout write eventually succeeds.
- Workflows.Rollout: assumes that a timeout write eventually succeeds.
- What a loop's check reads, the app and then its operations, is one read of the history.
- Histories recorded before two workflow patches, and continue-as-new, which only carries the waited time over.
- The choice of a sweep's batch (`sweep_drift`): its acceptances and stamps are ordinary steps of a run.
- The cost history per pattern, its ordering of the movers, and the float total; a scan cut off at the row limit sees only those rows.
- `_diff_paths`: Python's equality of `True` and `1` is not modelled; sorting and cutting the list, and sensitive marks, are left out.
- Document checks of teams (`team_check`) are a verdict with warning codes; the revision summaries' text is left out.
- Routes, error envelopes, authentication, Terraform, git and Temporal internals, SQLite and JSON encoding, and the legacy path.

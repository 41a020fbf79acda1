# A model of runnerforge, with proofs

runnerforge creates a machine per CI job, registers it with a code forge, watches it, and takes it away again. This
project models the parts of it whose correctness does not show from any one function, and proves what they promise:

* **The machine lifecycle** (`internal/controller` with the instance table of `internal/store`): one world of clouds,
  forges, tables and a clock; reconcile passes, reaper sweeps, operator actions, webhook deliveries and the outside
  world as its steps. Any provider, forge or database call may fail, with or without having had its effect; a launch may
  crash between any two of its effects (from then on all its calls count as failed); sweeps may fall anywhere.
* **The reaper**: what each sweep guarantees, its fixed point, and why it leaves a launch under way alone.
* **The scaling decision**, the webhook-fed job queue and the cost figures.
* **The client cache**, **the Kubernetes reconciler**, and **the configuration highlighter**.

## How it is put together

| files | contents |
|---|---|
| `Types`, `Instances`, `Worlds` | vocabulary, rows and their stamps, the world, its primitive effects and its invariant |
| `Lifecycle`, `Passes` | what happens to one machine, to a pool's machines in a pass, and in the operator's destroy |
| `Launches`, `WriteAhead` | launch as single effects; the row written ahead against the sweeps |
| `Reaper`, `ReapPasses`, `OnePass`, `DestroyAll` | the three sweeps, whole passes and their fixed point, when one pass is enough, the operator's last resort |
| `Scaling`, `Webhook`, `Billing` | planning, announced demand, bills |
| `System`, `Accounting`, `Evidence`, `Capacity`, `History` | the transition system and what holds over all its runs |
| `Standstill` | passes one after the other while nothing else happens; when a pool is left without machines |
| `Witnesses`, `Moves` | states of runs in which the code does less than it says; what moving a pool costs |
| `Store`, `Controller`, `Refinement` | the same code as objects changed in place, proved to take steps of that system |
| `Decimals`, `Resolver` | numerals; the client cache |
| `K8s` | the configuration reconciler as phases over tables, when every call works: what passes converge to |
| `ClusterObjects`, `Declared` | its objects, and what they come to in the tables, field by field |
| `StoreCalls` | its pass with every call free to fail, on a store that enforces references: what every pass keeps |
| `FinePass`, `Reconciler` | the loops over objects and records, proved to be that pass, and those phases when every call works |
| `Highlight`, `Literals` | printing and scanning; reading a printed literal back |

Functions of the world say what an operation does for given answers of the outside; the classes `Store`, `Outside`,
`Controller`, `Resolver`, `HookTable` and `Reconciler` hold the tables as fields and run the source's loops, with every
answer and every iteration order left open, and each of their methods is proved to change the state exactly as the
function says. `Refinement` shows that a pass of the code is a sequence of steps of the transition system, so that the
results about all runs are results about the code.

What the outside owes is written into the steps: the id of a machine is never handed out twice and that of a
registration not while one stands, generated names are new, the forge's job ids are distinct and not empty, a delete
that reports success has removed the machine. Clouds, forges and pools are added, changed and removed by operator
steps; a cloud or a forge that a pool uses cannot go. A pool keeps its name and its cloud while it has live rows.
Neither the forms nor the cluster make sure of that, and `Moves` says what it costs otherwise: after a rename the sweep
of the clouds takes the pool's machines, whatever they are doing (`Moves.RenamedPoolLosesItsMachines`), and on a new
cloud the sweep of the rows closes exactly the rows whose ids mean nothing there, their machines running on
(`Moves.MovedPoolLosesItsRows`).

## Where the code says more, or less, than its comments

* `internal/store/models.go:274` says that states form a line. They do not: after a failed destroy a row is Draining,
  and the next pass may find the runner busy and set the row back to Busy (`internal/controller/lifecycle.go:192-198`).
  `Lifecycle.AdvanceMovesBackExactlyWhen` is the exact condition, `Passes.FailedDestroyThenBusy` shows how it comes
  about and `Witnesses.StatesDoNotFormALine` is a state of a run in which it does. What holds of all rows is
  `History.RowsMoveForward`: leaving out Draining and Failed, states never go back.
* Deleted is final only as long as no sweep overtakes a launch. A launch that is still under way when a sweep closes
  its row writes the whole row from its own copy and opens it again; `Witnesses.DeletedIsNotFinal` is a run in which
  that happens. `WriteAhead.WaitingRowClosedExactlyAfterGrace` says when a sweep closes it,
  `History.StepReopensExactlyWhen` that of all steps of the system exactly the launch's own next save undoes that, and
  `History.ClosedRowsAreReopenedByTheirLaunch` says so of all runs. The row history is therefore proved for runs in
  which sweeps during a launch come while it is younger than the grace period and its pool's lifetime and the machine
  its row may already name has not vanished by itself (`System.Timely`); accounting, evidence and capacity need no such
  condition.
* A second machine can be launched for a job that already has one (`internal/controller/controller.go:222-225`): one
  machine per job holds per pool. Another pool whose labels serve the job launches for it too, although it has its
  machine (`Capacity.TwoPoolsLaunchForOneJob`); `Capacity.QueuedExactlyWhen` is the exact condition, in which no other
  pool occurs.
* One pass of the reaper may leave work behind even when every call works: a row that only its last sweep closes can
  still have a machine that the first sweep found justified, or a registration that the second spared.
  `OnePass.OnePassSettlesExactlyWhen` is the exact condition on the world before the pass, and
  `Witnesses.OnePassMayFallShort` a state of a run that does not meet it.
* When a provider refuses, launch takes the registration back by the handle the forge gave out, and so leaves it exactly
  when the handle is not the registration's id (`Launches.RefusedLaunchRollsBack`); the sweep of the forges collects it.
* Checks of announced jobs that fail use up a pass: every due row stays due, those not asked about included, exactly
  when each of the ten asked about got no answer or one whose write had no effect
  (`Webhooks.UnansweredChecksBlockTheRest`).
* A catalogue entry that a pool moves off outlives the pass that moves it, since the sync of its cloud came before
  (`K8s.FreedSizeTakesTwoPasses`). `K8s.OnePassEnoughExactlyWhen` is the exact condition on the tables and the manifest.
* A pool deleted from the cluster is to be removed (`internal/k8s/reconcile.go:461-464`), but the pass does not take it
  out of service, and a pool with live machines is spared. While it keeps machines warm it therefore stays and goes on
  launching; `Standstill.DeletedPoolGoesExactlyWhen` says exactly when it goes.
* The reconciler ignores failing lookups and counts (`internal/k8s/reconcile.go:117`, `217`, `233`, `571`): a failed
  lookup turns a save into an insert that the unique name refuses, a failed count reads as nought and goes on to the
  delete. That no reference breaks then is the doing of the store's foreign keys (`internal/store/store.go:33`); it is
  part of `StoreCalls.EveryPassKeepsReferences`.
* hclString quotes a value for HCL (`internal/export/export.go:82-86`) and doubles the introducer of an interpolation,
  but not that of a template directive. So a printed literal stands for the value exactly when that has no `%{` in it
  (`Literals.LiteralReadsBackExactlyWhen`); `Literals.DirectiveDoesNotReadBack` is one that has.
* No machine is to be torn down on bad evidence (`internal/controller/lifecycle.go:158-200`), and as long as its pool
  stays on its forge none is: the registration once read there is gone from there (`Evidence.TeardownHasHistory`). But
  a pool may be moved to another forge while it has live rows, and nothing notes which forge a registration is on. The
  next pass reads the new forge, and removes a machine in the middle of its job exactly when the new forge has no
  registration of that id (`Evidence.SightedWorkerIsRemovedExactlyWhen`); `Witnesses.MovedPoolLosesItsWorker` is such a
  run.

## Model

| member | source | states |
|---|---|---|
| Accounting.EveryMachineIsAccountedFor | internal/controller/controller.go:399-486 | in every state of every run, whatever failed, crashed or came in between, each machine of this deployment has a live row of its name, or a Deleted row that never learned its id, or lost its row with the pool or the database |
| Accounting.RunKeepsSysInv | internal/controller/controller.go:57-201 | the invariant behind it holds in every state of every run |
| Accounting.StepKeepsSysInv | internal/controller/reap.go:20-44 | no step breaks it: outside changes, advances, decisions, launch effects, crashes, sweeps, operator actions on machines, pools, clouds and forges |
| Accounting.TwoPassesCollectEveryLeak | internal/controller/reap.go:20-44 | from any state of any run two flawless reaper passes leave no machine of this deployment without a live row and an existing pool on any configured cloud |
| Worlds.InvAccounts | internal/controller/controller.go:399-403 | the invariant implies the accounting of every machine; a Deleted row with a provider id never hides one |
| Worlds.MatchesExactlyItsOwnTags | internal/cloud/cloud.go:74-89 | an owner matches another owner's tags exactly when the controller is the same and the pool is the same or unset |
| Lifecycle.DestroyOutcome | internal/controller/lifecycle.go:287-325 | success means the machine is gone and the row Deleted; a failed delete leaves the row live; a registration that will not go does not hold the row open |
| Lifecycle.DestroyExactly | internal/controller/lifecycle.go:287-325 | the machine is deleted exactly when the row says Draining or the write of that worked; the registration goes and the row is closed exactly when the machine is gone too, each if its own call has an effect; and the state and stamps this leaves |
| Lifecycle.AdvanceIsSound | internal/controller/lifecycle.go:62-155 | whatever is answered, a row keeps its identity and is closed only when the machine it names is gone |
| Lifecycle.ClosedExactlyWhen | internal/controller/lifecycle.go:62-200 | with every call working, a row is closed, and machine and registration removed, exactly when it is older than the pool's limit, failed without a machine, is gone or down at the provider, or was seen and is no longer registered |
| Lifecycle.UpOutcome | internal/controller/lifecycle.go:158-200 | a machine that is up and kept becomes Busy exactly when its runner is at work and Idle exactly when it was Booting and its runner is online and free, with that state's stamp if unset; billing starts exactly at the first Running; nothing else changes, and nothing when the save has no effect |
| Lifecycle.LeftAlone | internal/controller/lifecycle.go:80-99 | within its lifetime a row is left as it is while its machine is still to come or the provider does not answer |
| Lifecycle.AdvanceEvolves | internal/controller/lifecycle.go:62-200 | every write of an advance is a step forward of the row: state order, first stamps kept, bill recorded only at the close |
| Lifecycle.TeardownNeedsEvidence | internal/controller/lifecycle.go:158-200 | a machine reported up and within its lifetime is torn down only if a trusted reading lacks its registration and the row was once seen ready or busy |
| Lifecycle.TeardownExactlyWhen | internal/controller/lifecycle.go:158-200 | with every call working, such a machine is removed exactly then |
| Lifecycle.MarksNeedEvidence | internal/controller/lifecycle.go:192-198 | ready and claimed stamps appear only when this pass's reading has the registration |
| Lifecycle.SurvivorsAreHealthy | internal/controller/lifecycle.go:62-155 | with all calls working, a row still live after its advance is within its lifetime and has no machine and is not Failed, or has one that is running or creating |
| Launches.StepKeepsInv | internal/controller/controller.go:404-486 | any single effect of a launch, failing or not, keeps the invariant of the world and of the launch |
| Launches.LaunchSucceeds | internal/controller/controller.go:404-504 | with every call working exactly one row, one machine with the owner's tags and one registration are added; field by field, the row is for its pool and job, knows both ids, carries the hourly price of the pool's size at that moment, or none without a size, and has no stamp and no bill |
| Launches.RefusedLaunchRollsBack | internal/controller/controller.go:460-471 | when the provider refuses, no machine is added, the row is left Failed and the minted registration is taken back exactly when the forge's handle is its id |
| Launches.FailedLaunchMakesNoMachine | internal/controller/controller.go:429-436 | when the forge mints nothing, or the write after it fails, no machine is made, the row is left Failed and a registration that was minted stays |
| Launches.FailedLaunchTakesNothingBack | internal/controller/controller.go:438-478 | when no bootstrap can be built, or the last write fails, the row is left Failed with all that is known, and machine and registration stay |
| Launches.LaunchWorksExactly | internal/controller/controller.go:404-486 | a launch reports success exactly when every one of its calls worked |
| Passes.OthersKeepTheirMachines | internal/controller/lifecycle.go:287-325 | advancing or destroying one row never removes or changes another live row's machine or row |
| Passes.SurvivorsOfPass | internal/controller/controller.go:142-155 | with all calls working, every row of the pool that is live after the advance loop is healthy |
| Passes.VisitTakesAllOrNothing | internal/controller/lifecycle.go:287-325 | a visit whose calls work closes the row and removes exactly its machine and its registration, or removes nothing |
| Lifecycle.AdvanceMovesBackExactlyWhen | internal/controller/lifecycle.go:158-200 | an advance moves a row back in the line of states exactly when it is Draining or Failed, its machine is up and young, the reading shows its runner busy and the save has an effect; then it is Busy |
| Passes.FailedDestroyThenBusy | internal/controller/lifecycle.go:287-325 | a destroy on request whose delete fails, then a pass that finds the runner at work: Busy, Draining, Busy |
| Witnesses.StatesDoNotFormALine | internal/store/models.go:272-304 | a run reaches a state in which a row is Draining and the next pass sets it back to Busy |
| Passes.OperatorDestroyOutcome | internal/controller/admin.go:54-102 | success leaves the row closed and no machine of its name that it knew of; a failed delete leaves the row live; an unreachable forge never matters |
| Passes.OperatorBranches | internal/controller/admin.go:54-102 | which answers leave everything alone, which only close the row, and when the machine goes |
| Reaper.CloudSweepGuarantee | internal/controller/reap.go:47-165 | on each cloud whose calls worked every remaining owned machine has a live row, an existing pool's tag and no age beyond its lifetime; anywhere only owned, unjustified machines are deleted |
| Reaper.CloudSweepKeepsInv | internal/controller/reap.go:94-165 | the sweep of the clouds keeps the invariant, though it closes rows |
| Reaper.UnjudgedIsJustified | internal/controller/reap.go:114-147 | the branches of reapMachine spare a machine exactly when it is justified |
| Reaper.MachineGoesExactlyWhen | internal/controller/reap.go:94-165 | a visit whose calls work removes a machine exactly when its name begins with rf- and it has no row or a Deleted one, its pool is gone, or its reported age is over the pool's limit in seconds; its row is closed with it |
| Reaper.ForgeSweepGuarantee | internal/controller/reap.go:189-237 | on each forge whose calls worked no idle registration of ours without a live, unfailed row is left; only such registrations go |
| Reaper.RunnerGoesExactlyWhen | internal/controller/reap.go:204-232 | a visit whose calls work removes a registration exactly when its name begins with rf-, it runs no job, and it has no row or a Deleted or Failed one |
| Reaper.RowSweepGuarantee | internal/controller/reap.go:243-287 | every hollow row visited with working calls is closed and no other row changes |
| Reaper.RowClosesExactlyWhen | internal/controller/reap.go:249-285 | a visit closes a row exactly when its pool is gone, it has waited more than 600 seconds for its machine, or every question was answered and its machine is gone |
| ReapPasses.TwoPassesSettle | internal/controller/reap.go:29-44 | with clock and outside standing still, two flawless passes leave every owned machine justified, no orphaned registration and no hollow row |
| ReapPasses.SettledIsFixed | internal/controller/reap.go:29-44 | a settled world is a fixed point of any further pass, even one in which calls fail |
| ReapPasses.ThirdPassChangesNothing | internal/controller/reap.go:29-44 | a third pass changes nothing |
| OnePass.OnePassSettlesExactlyWhen | internal/controller/reap.go:29-44 | a pass in which every call works settles exactly when, before it, no live row has nothing behind it, loses no machine to the sweep of the clouds, and still has a machine or, not being failed, an idle registration |
| Witnesses.OnePassMayFallShort | internal/controller/reap.go:29-44 | a run reaches a state, by a launch that dies half way, in which a pass whose every call works leaves an orphaned registration |
| ReapPasses.SettledExactlyWhenNothingLeft | internal/controller/reap.go:29-44 | also when rows could not be closed with their machines, one pass settles exactly when no row it closes last still has a machine or an idle registration |
| WriteAhead.WaitingRowClosedExactlyAfterGrace | internal/controller/reap.go:260-268 | the row of a launch that waits for its machine is closed exactly when it is older than ten minutes |
| WriteAhead.LaunchReopensItsRow | internal/store/store.go:263-288 | a row closed under a launch is live again exactly when the launch's next step saves |
| History.YoungLaunchesAreSpared | internal/controller/reap.go:94-287 | in every state of every run in which sweeps find launches young and the outside leaves their machines alone, a whole reaper pass takes nothing of a young launch under way |
| History.StepReopensExactlyWhen | internal/store/store.go:263-288 | of all steps of the system only the next save of its own launch makes a Deleted row live again, and every such save does |
| History.ClosedRowsAreReopenedByTheirLaunch | internal/store/store.go:263-288 | in any run, a row once Deleted is live later only if in between its own launch saved it |
| Witnesses.DeletedIsNotFinal | internal/controller/reap.go:260-268 | a run reaches a state in which a sweep has closed the row of a launch under way, and the launch's next step opens it again |
| Evidence.TeardownHasHistory | internal/controller/lifecycle.go:158-200 | in any run, when a pass tears down a machine that is up and young, its reading worked and lacks the registration, and an earlier pass's working reading had that same registration, which was the row's then too; if the pool is still on that forge, the registration is gone from it |
| Evidence.PassRemovesExactlyWhen | internal/controller/lifecycle.go:46-200 | a pass that reads the forge and whose calls work removes a machine that is up and young exactly when its row was once seen ready or busy and its registration is not on the forge the pool is on now |
| Evidence.SightedWorkerIsRemovedExactlyWhen | internal/controller/lifecycle.go:158-200 | in any state of any run, when the registration once read still stands, a working pass removes the machine, up and young, exactly when its pool is now on another forge that has no registration of that id |
| Witnesses.MovedPoolLosesItsWorker | internal/k8s/reconcile.go:343-347 | a run reaches a state in which a pool has been moved to another forge and the next pass removes its machine in the middle of its job, the registration still standing and busy |
| Moves.RenamedPoolLosesItsMachines | internal/controller/reap.go:114-147 | after a pool's name is changed, a sweep of its cloud removes its otherwise sound machines exactly when the name is new |
| Moves.MovedPoolLosesItsRows | internal/controller/reap.go:243-287 | after a pool is moved to another cloud, a sweep of the rows leaves a row live exactly when its id means a machine there, and removes no machine |
| Evidence.SeenHasListing | internal/controller/lifecycle.go:46-58 | a registration counts as seen for a row only if some earlier pass read it, on the forge of the row's pool at that time, when it was the row's |
| Capacity.OneMachinePerJob | internal/controller/controller.go:159-192 | in every state of every run no pool has two live rows bound to the same job |
| Capacity.CeilingHolds | internal/controller/controller.go:264-277 | from any moment between passes on, a pool's live rows never exceed the larger of its ceiling and the number it had |
| Capacity.DecisionQueue | internal/controller/controller.go:168-192 | what a decision queues are distinct jobs that no live row is bound to, within the room the pool has |
| Capacity.QueuedExactlyWhen | internal/controller/controller.go:159-192 | a decision queues a job exactly when it is among the uncovered jobs of the pool's own queue, behind those left to idle machines and within the room |
| Capacity.TwoPoolsLaunchForOneJob | internal/controller/controller.go:217-226 | a job that a live machine of one pool was created for is queued by any other serving pool that has no machines and whose labels serve it |
| Scaling.PlanScale | internal/controller/controller.go:226-279 | the loops compute the plan of the specification: what is launched, kept warm and left waiting |
| Scaling.PlanConservesDemand | internal/controller/controller.go:255-277 | uncovered jobs are exactly those left to idle machines, launched for or waiting; jobs wait only when the pool is full and nothing is kept warm |
| Scaling.PlanNumbers | internal/controller/controller.go:255-277 | how many uncovered jobs are launched for and how many wait, and that what room is left is filled up to the number to keep idle, no further |
| Scaling.RowCounts | internal/controller/controller.go:228-245 | which rows count as idle, namely unbound ones that are Pending, Provisioning, Booting or Idle, and which against the ceiling |
| Scaling.UncoveredInOrder | internal/controller/controller.go:246-253 | the uncovered jobs are, in order, exactly those that no row was created for |
| Scaling.PlanRespectsCeiling | internal/controller/controller.go:264-277 | the plan never takes a pool over its ceiling and adds nothing to one that is over it |
| Scaling.PlanLaunchesForUncovered | internal/controller/controller.go:246-269 | machines are launched for distinct waiting jobs that none was created for |
| Scaling.LaunchedAreAStretch | internal/controller/controller.go:246-269 | the jobs launched for are a contiguous stretch of the uncovered ones, from where idle machines run out to where the room does |
| Scaling.ReplanLaunchesNothing | internal/controller/controller.go:217-279 | planning again after the planned launches launches nothing for the same queue |
| Scaling.MatchingJobs | internal/controller/controller.go:285-304 | the loop keeps, in order, the jobs for each of whose labels some label of the pool has the same bare name up to case, and no others |
| Scaling.LabelsAgreeExactlyWhen | internal/controller/controller.go:387-395 | two labels mean the same exactly when what they say before the first colon agrees letter by letter up to case |
| Scaling.ServesExactlyWhen | internal/controller/controller.go:281-304 | a pool serves a job exactly when for each label the job asks for some label of the pool has that bare name up to case |
| Scaling.MatchingKeeps | internal/controller/controller.go:281-304 | a job is kept exactly when it is served in that sense, and distinct named jobs stay so |
| Scaling.MatchingInOrder | internal/controller/controller.go:294-303 | the jobs kept are those, in the order of the queue |
| Scaling.KeptInOrder | internal/controller/controller.go:294-303 | what is kept of a queue by a condition are exactly the jobs at the positions that meet it, in increasing order |
| Scaling.MergeJobs | internal/controller/controller.go:361-376 | the loop computes the merge of polled and announced demand |
| Scaling.MergeIsAUnion | internal/controller/controller.go:359-376 | every job known to either side is there once, the polled entry winning |
| Scaling.MergedInOrder | internal/controller/controller.go:359-376 | polled jobs come first, then in their order exactly the announced ones whose id was not polled |
| Scaling.PinnedLabelsServeTheSame | internal/controller/controller.go:387-395 | a pool serves the same jobs whether its labels are pinned to an image or bare |
| Scaling.NormalizeIgnoresPinAndCase | internal/controller/controller.go:387-395 | a label means the same with or without a pinned image and in any case |
| Scaling.NormalizeIsIdempotent | internal/controller/controller.go:390-395 | normalising twice is normalising once |
| History.RowsMoveForward | internal/store/store.go:263-288 | over any timely run a row's visible states never go back, Deleted is final and stamped, and every stamp and id keeps its first value |
| History.VisibleStatesAreOrdered | internal/store/models.go:272-304 | Pending, Provisioning, Booting, Idle, Busy, Deleted come in this order in every row's history |
| History.LostForGood | internal/store/store.go:203-232 | in any run, a name that lost its row with its pool or the database never names a row again |
| History.BillsOnlyGrow | internal/store/cost.go:43-66 | over any timely run a row's bill never drops, and is constant once the row is Deleted |
| History.RowsKeepTheirPrice | internal/controller/controller.go:404-417 | over any timely run each row begins with a launch, for the pool and job of that, at the price the pool's size had then; it keeps that price, and costs at least a sixtieth of it once its machine was seen running |
| Billing.BillNeverDrops | internal/store/cost.go:19-66 | no write, and no passing of time, lowers a bill |
| Billing.BillIsRateTimesTime | internal/store/cost.go:12-56 | a row costs its hourly rate times the time from the first Running to its close or to now, 60 seconds at least; nothing without a rate or before Running |
| Billing.AtLeastOneMinute | internal/store/cost.go:35-56 | an active priced machine costs at least a sixtieth of its hourly rate |
| Billing.CloseRecordsTheBill | internal/store/cost.go:58-66 | the write that ends a destroy records the billed seconds and the cost, and changes nothing else but state and stamp |
| Billing.NoJumpAtClose | internal/store/cost.go:58-66 | neither the settlement nor the reaper's bare close changes the figure |
| Billing.ClosedBillIsConstant | internal/store/cost.go:19-33 | a closed row's bill does not depend on the clock |
| Billing.TotalSpend | internal/store/cost.go:100-116 | the loop adds up the priced active rows and counts the active and the unpriced ones |
| Billing.SkippedRowsCostNothing | internal/store/cost.go:100-116 | nothing is lost by skipping: the total is what all rows cost |
| Billing.SpendIsMonotone | internal/store/cost.go:78-116 | over a fixed set of rows the total only grows |
| Refinement.PassIsARun | internal/controller/controller.go:123-201 | every pass of the code, with its launches or returning early because a read failed, is a run of the transition system |
| Refinement.LaunchReaches | internal/controller/controller.go:404-486 | a launch of the code is one launch of the system, effect by effect |
| Refinement.ReapIsARun | internal/controller/reap.go:29-44 | a reaper pass of the code is up to three sweeps of the system, at whatever moment it comes |
| Refinement.RunGoesOn | internal/controller/controller.go:75-88 | passes one after the other make one run |
| Standstill.SecondPassLaunchesNothing | internal/controller/controller.go:123-201 | with clock, outside and demand standing still, after a pass in which every call works the next such pass removes nothing and launches nothing |
| Standstill.ThirdPassChangesNothing | internal/controller/controller.go:123-155 | and the one after that changes nothing at all |
| Standstill.LeftWithoutMachinesExactlyWhen | internal/controller/controller.go:123-201 | a working pass leaves a pool without machines exactly when none came through it and the pool may have none, or keeps none warm and no job waits for it |
| Standstill.DeletedPoolGoesExactlyWhen | internal/k8s/reconcile.go:457-514 | after such a pass, a reconcile of the cluster removes a pool without an object exactly when its cloud is the cluster's and the pass left it without machines in that way |
| Stores.Store.SetState | internal/store/store.go:263-288 | the in-memory row gets the state and its stamp unless it has one, and the whole row is saved or not |
| Stores.Store.LiveInstances | internal/store/store.go:195-201 | copies of exactly the live rows, once each |
| Stores.Store.DeletePool | internal/store/store.go:203-232 | refused exactly while a row of the pool is live; otherwise the pool goes with exactly its own rows, or nothing changes |
| Stores.Instance.Settle | internal/store/cost.go:59-66 | duration and cost are recorded when there is a billable window at all |
| Controllers.Controller.Destroy | internal/controller/lifecycle.go:287-325 | does to row, machine and registration exactly what the specification says, and reports success exactly then |
| Controllers.Controller.Advance | internal/controller/lifecycle.go:62-155 | one step of one machine, branch for branch |
| Controllers.Controller.AdvanceRunning | internal/controller/lifecycle.go:158-200 | what the forge's view of a machine that is up leads to, as Lifecycle.UpOutcome and Lifecycle.ClosedExactlyWhen say it |
| Controllers.Controller.SnapshotRunners | internal/controller/lifecycle.go:46-58 | a failed listing is not an empty one |
| Controllers.Controller.AdvanceMachines | internal/controller/controller.go:136-149 | every live row of the pool is advanced once against one snapshot |
| Controllers.Controller.LaunchMachine | internal/controller/controller.go:404-504 | runs the launch of the specification, with the price of the pool's size, and succeeds exactly when every call worked |
| Controllers.Controller.LaunchPlan | internal/controller/controller.go:185-200 | launches the queue in order up to and including the first failure |
| Controllers.Controller.ReconcilePool | internal/controller/controller.go:123-201 | the whole pass: advance, re-read, plan, launch, with its early returns |
| Controllers.Controller.ReapMachine | internal/controller/reap.go:94-165 | deletes and closes exactly as judged |
| Controllers.Controller.ReapClouds | internal/controller/reap.go:47-92 | visits every configured cloud once and every machine it lists once, skipping what does not answer |
| Controllers.Controller.ReapForges | internal/controller/reap.go:189-237 | visits every forge and every registration it lists once |
| Controllers.Controller.ReapRows | internal/controller/reap.go:243-287 | visits every live row once |
| Controllers.Controller.Reap | internal/controller/reap.go:29-44 | the three sweeps in order, each skipped when its tables cannot be read |
| Controllers.Controller.DestroyInstance | internal/controller/admin.go:54-102 | the operator's destroy, branch for branch, and when it reports success |
| Controllers.Controller.DeletePool | internal/store/store.go:203-232 | deleting a pool is the operator's step of the system: refused while a row is live, otherwise the pool and its rows are gone and their names lost |
| Controllers.Controller.DestroyAll | internal/controller/reap.go:293-323 | visits every cloud and machine once and reports the number of deletes that worked |
| Wipes.DestroyAllGuarantee | internal/controller/reap.go:289-323 | only machines of this deployment go, no row is touched, and none is left on a cloud whose calls worked |
| Wipes.DestroyAllCounts | internal/controller/reap.go:289-323 | the number reported is the number of machines that are gone, when no failed delete has worked after all |
| Webhooks.HookTable.ApplyWorkflowJob | internal/web/webhook.go:117-158 | a delivery that parses, has an id and whose write takes effect stores its own labels, repository, ref and times if its action is queued, and removes the job if it is in_progress or completed; all else leaves the table alone; and the outcome and the error reported |
| Webhooks.TableIsLastQueued | internal/controller/controller.go:320-357 | over any history of deliveries and passes, a job is in the table exactly when a delivery said queued and since then none said in_progress or completed and no pass dropped its row; the row says what the last such delivery said |
| Webhooks.JobsDoNotCollide | internal/store/store.go:153-164 | deliveries about different jobs or from different forges have different rows |
| Decimals.FormatReadsBack | internal/web/webhook.go:127 | a job's id is kept as its decimal numeral, without zeros in front |
| Webhooks.HookTable.WebhookDemand | internal/controller/controller.go:320-357 | returned demand, table and number of checks of a pass; at most ten checks |
| Webhooks.RowOutcome | internal/controller/controller.go:302-356 | what a pass does with a row: dropped unasked after 7200 seconds; asked about after 90, 90 after the last answer, if fewer than ten were; dropped only if then reported gone |
| Webhooks.TheFirstTenAreExamined | internal/controller/controller.go:337-340 | exactly the first ten due rows are asked about |
| Webhooks.ReturnedAreTheKept | internal/controller/controller.go:327-356 | the demand is one job for each row neither aged out nor reported gone, in the order of the rows |
| Webhooks.AnnouncedDemandIsWellFormed | internal/controller/controller.go:171-176 | after any history, announced jobs are distinct and named, as the scaling decision needs them |
| Webhooks.WorkingPassSettlesTen | internal/controller/controller.go:310-357 | a working pass settles exactly ten due rows, or all if there are fewer |
| Webhooks.SettledAfterCeilingOfTens | internal/controller/controller.go:310-357 | with a frozen clock and every check answered, all due rows are settled after exactly as many passes as there are tens of them, rounded up |
| Webhooks.UnansweredChecksBlockTheRest | internal/controller/controller.go:337-350 | the due rows stay exactly the same exactly when every row asked about got no answer, or one whose write had no effect |
| Resolvers.Resolver.Cloud | internal/controller/resolve.go:37-60 | the client returned is the one the given record would build now; a build replaces exactly its own record's entries |
| Resolvers.Resolver.Forge | internal/controller/resolve.go:62-84 | the same for forges, whose configuration carries the record's name |
| Resolvers.Prune | internal/controller/resolve.go:86-94 | drops exactly the keys that start with the id |
| Resolvers.PrefixFindsExactlyItsRecord | internal/controller/resolve.go:86-94 | the prefix of an id matches a key exactly when the key is of that id |
| Resolvers.CacheKeyIsInjective | internal/controller/resolve.go:35 | a key tells the record and its revision |
| Resolvers.ReplacingIsCoherent | internal/controller/resolve.go:55-60 | after a new build each record has at most one entry, and other records keep theirs |
| Resolvers.MergeSettings | internal/controller/resolve.go:96-109 | credentials win over settings of the same name and nothing else is lost |
| Resolvers.ClientsSay | internal/controller/resolve.go:37-109 | what a client is built from: a cloud's name and driver, a forge's kind, the settings with the credentials over them, and the forge's name over all |
| K8s.ThirdPassChangesNothing | internal/k8s/k8s.go:150-170 | with cluster and live machines unchanged a third pass changes no record, whatever the tables held before |
| K8s.FirstPassIsExact | internal/k8s/reconcile.go:318-384 | after one pass each pool that can be applied is exactly as the manifest has it |
| K8s.OnePassEnoughExactlyWhen | internal/k8s/reconcile.go:149-240 | one pass is enough exactly when it frees no unlisted entry that was in use before it; said of the tables and the manifest before the pass |
| K8s.FreedSizeTakesTwoPasses | internal/k8s/reconcile.go:210-240 | a pool that moves to a new size takes two passes, the old size going in the second |
| K8s.ReconcileKeepsIntact | internal/k8s/reconcile.go:318-384 | a pass in which every call works keeps each pool's forge, cloud, size and image existing, size and image on that cloud, whatever the state of other pools |
| K8s.ForeignCloudsUntouched | internal/k8s/reconcile.go:535-566 | in such a pass clouds without the marker that match no object stay as they are, with their catalogues |
| K8s.ForeignForgesUntouched | internal/k8s/reconcile.go:535-566 | so do forges |
| K8s.ForeignPoolsUntouched | internal/k8s/reconcile.go:490-531 | so do pools on such clouds that match no object; a pool with live machines is never removed |
| K8s.ManagedNamesAreDistinct | internal/k8s/reconcile.go:32-41 | different objects get different records, and a plain reference means the object of that name in the same namespace |
| K8s.OnePassAchieves | internal/k8s/k8s.go:150-170 | after one pass records and references are as the objects ask and nothing is left to prune |
| StoreCalls.EveryPassKeepsReferences | internal/k8s/reconcile.go:109-566 | whatever lists, lookups, saves, counts and deletes answer, each pool that had its references keeps them, and any other has them afterwards unless it is still there as it was |
| StoreCalls.EveryPassLeavesForeignClouds | internal/k8s/reconcile.go:535-566 | whatever is answered, clouds without the marker that match no object stay as they are, with their catalogues |
| StoreCalls.EveryPassLeavesForeignForges | internal/k8s/reconcile.go:535-566 | whatever is answered, forges without the marker that match no object stay as they are |
| StoreCalls.EveryPassLeavesForeignPools | internal/k8s/reconcile.go:490-531 | whatever is answered, pools on such clouds that match no object stay as they are |
| StoreCalls.EveryPassKeepsBusyPools | internal/store/store.go:213-232 | whatever is answered, a pool with live machines is never removed |
| StoreCalls.PoolGoesExactlyWhen | internal/k8s/reconcile.go:489-531 | a visit deletes a pool exactly when it has no object, its cloud carries the marker, cloud and live machines could be read and there are none, and the delete has an effect |
| StoreCalls.ForgeGoesExactlyWhen | internal/k8s/reconcile.go:535-548 | a visit deletes a forge exactly when it has no object, carries the marker and no pool refers to it, whether or not they could be counted, and the delete has an effect |
| StoreCalls.CloudGoesExactlyWhen | internal/k8s/reconcile.go:549-565 | the same for a cloud |
| StoreCalls.SizeGoesExactlyWhen | internal/k8s/reconcile.go:208-224 | a visit deletes a size exactly when its cloud's object lists none of its name, no pool has it, and the delete has an effect |
| StoreCalls.ImageGoesExactlyWhen | internal/k8s/reconcile.go:226-240 | the same for an image |
| StoreCalls.FailedSaveDeletesNothing | internal/k8s/reconcile.go:130-206 | when the save of a cloud's record, or of any of its named entries, fails, no entry is deleted |
| StoreCalls.FailedLookupWritesNothing | internal/k8s/reconcile.go:324-354 | a pool is not written when the lookup of its forge, cloud, size or image fails |
| StoreCalls.UnlistedPassPrunesNothing | internal/k8s/reconcile.go:465-488 | when the objects cannot be listed again, no record is deleted |
| StoreCalls.ReconcileWithKeeps | internal/k8s/k8s.go:150-170 | whatever is answered, a pass keeps every property of the tables that each single write it can make keeps |
| Reconcilers.Reconciler.Reconcile | internal/k8s/k8s.go:150-170 | a pass, with its later phases run whatever fails in the earlier ones, is the pass of the specification for the answers given; when every call works it is the phases |
| Reconcilers.Reconciler.ApplyCloud | internal/k8s/reconcile.go:109-141 | one object's record and catalogue, up to the first save that fails; an unreadable secret changes nothing |
| Reconcilers.Reconciler.SyncCatalogue | internal/k8s/reconcile.go:143-206 | the listed sizes, then the images, then the pruning; a save that fails stops it |
| Reconcilers.Reconciler.PruneCatalogue | internal/k8s/reconcile.go:208-240 | the unlisted entries found go unless counted as used; a failed count goes on to the delete, and all are found when the queries work |
| Reconcilers.Reconciler.Put | internal/k8s/reconcile.go:116-132 | a failed lookup of a record that exists makes the save an insert, which fails |
| Reconcilers.Reconciler.ReconcileForges | internal/k8s/reconcile.go:250-294 | every readable forge object's record, the webhook secret kept apart from the credentials; one that fails does not stop the others |
| Reconcilers.Reconciler.ApplyPool | internal/k8s/reconcile.go:318-384 | the pool is saved, with the fields Declared.PoolsAreAsDeclared says, exactly when its references are found and its lifetime exceeds its job timeout |
| Reconcilers.Reconciler.PrunePools | internal/k8s/reconcile.go:489-514 | of the pools found, managed ones without an object go whose cloud and live machines could be read and that have none; when every call works, exactly the managed, absent, idle pools |
| Reconcilers.Reconciler.PruneForges | internal/k8s/reconcile.go:537-548 | of the forges found, managed ones without an object go unless counted as used or held by the store; when every call works, exactly the managed, absent, unused ones |
| Reconcilers.Reconciler.PruneClouds | internal/k8s/reconcile.go:549-565 | the same for clouds, their catalogues going with them |
| Reconcilers.Reconciler.PruneDeleted | internal/k8s/reconcile.go:465-519 | pools, then forges, then clouds |
| FinePasses.FineCloud | internal/k8s/reconcile.go:109-240 | with every call working, saving and pruning one object's entries one by one comes to the cloud phase for it |
| FinePasses.CloudsPruned | internal/k8s/reconcile.go:549-565 | with every call working, deleting clouds one by one comes to pruning them at once |
| ClusterObjects.ManifestIsWellFormed | k8s/crds.yaml:157-270 | whatever is read from the cluster, of objects within the bounds of their definitions, meets what the results above ask for |
| Declared.PoolsAreAsDeclared | internal/k8s/reconcile.go:318-384 | after a working pass each pool object that can be applied has its pool, enabled unless it says false, with its labels, image, addresses, references and limits, absent limits being 0, 5, 3600 and 7200 |
| Declared.CloudsAreAsDeclared | internal/k8s/reconcile.go:109-206 | each readable cloud object has its record: driver, enabled, settings with the marker, credentials; and every named size and image as it was last listed |
| Declared.ForgesAreAsDeclared | internal/k8s/reconcile.go:250-294 | each readable forge object has its record: kind, enabled, settings with the marker, and the credentials without the webhook secret, which is kept apart unless it is empty |
| Highlighting.Highlight | internal/web/highlight.go:28-42 | the loop prints every line in its format, and a reader of the page sees the text and one newline |
| Highlighting.HighlightingKeepsText | internal/web/highlight.go:28-42 | for every text, in both formats, removing tags and resolving entities gives the text and one newline |
| Highlighting.HighlightHCLLine | internal/web/highlight.go:52-86 | the loop prints the tokens of the line |
| Highlighting.HclLineKeepsText | internal/web/highlight.go:52-86 | the tokens of an HCL line are the line |
| Highlighting.HclToken | internal/web/highlight.go:68-84 | each step takes a non-empty head of what is left |
| Highlighting.WordsAre | internal/web/highlight.go:71-73 | a token that begins with a letter is the longest run of letters, digits, underscores and dashes |
| Highlighting.WordClassIs | internal/web/highlight.go:127-140 | a word is a keyword exactly if it is one of twelve, and else a reference exactly if a dot follows |
| Highlighting.OtherTokensAre | internal/web/highlight.go:68-84 | a quote begins a string, a digit the longest run of digits and dots, anything else stands alone |
| Highlighting.HclCommentsAre | internal/web/highlight.go:52-58 | a line is a comment exactly when a hash or two slashes come first behind its blanks |
| Highlighting.AttributesAreFollowedByEquals | internal/web/highlight.go:127-147 | a word is coloured as an attribute exactly when it is no keyword and no reference and an equals sign follows after blanks |
| Highlighting.HighlightYAMLLine | internal/web/highlight.go:158-192 | prints the tokens of the line |
| Highlighting.YamlLineKeepsText | internal/web/highlight.go:158-237 | the tokens of a YAML line are the line |
| Highlighting.YamlLineIs | internal/web/highlight.go:158-192 | what comes first behind the spaces of a line makes it a comment, a document mark, a list item or a key and value |
| Highlighting.SplitYAMLKey | internal/web/highlight.go:194-210 | the loop splits at the first colon, and only if a space or the end follows |
| Highlighting.KeysAreFollowedBySpace | internal/web/highlight.go:194-210 | there is a key exactly when a space or the end follows the first colon |
| Highlighting.ScalarsAre | internal/web/highlight.go:225-236 | a scalar is coloured as a string, a keyword or a number exactly when it begins with a quote, is true, false or null, or is numeric |
| Highlighting.IsNumeric | internal/web/highlight.go:239-259 | a scalar is a number exactly when it is digits with at most one dot and a sign only in front |
| Highlighting.EscapedIsInert | internal/web/highlight.go:16-26 | escaped text can neither open nor close a tag or an attribute |
| Highlighting.ScanHCLString | internal/web/highlight.go:88-107 | the loop finds the literal at the head of the line |
| Highlighting.ScanReadsWhatWasPrinted | internal/export/export.go:82-86 | scanning a printed literal followed by anything gives back exactly the literal |
| Literals.LiteralReadsBackExactlyWhen | internal/export/export.go:82-86 | a printed literal stands for the text it was printed from exactly when that holds no directive |
| Literals.DirectiveDoesNotReadBack | internal/export/export.go:82-86 | a text that holds one is no plain text when read |

## Left out

- HTTP clients, drivers, cloud-init, Docker logs: only the contracts of providers and forges are modelled, as answers.
- Web handlers, forms, the JSON API, the Terraform provider, OIDC and sessions: plumbing over the same tables.
- SQL, migrations, encryption: tables are maps; a save replaces a whole row, or does not.
- Metrics, the event log, captured output, IP addresses, error texts, status fields and their joined error values: no
  effect on the protocol state.
- Goroutine-level interleaving: passes are serial, as in `Run`, apart from sweeps and crashes inside a launch; a reaper
  or operator call from a web handler that overlaps an advance is not modelled.
- Rows are known by their unique machine name instead of the number the database gives them, and configuration records
  of the Kubernetes reconciler by their unique names; iteration orders are arbitrary instead of by creation time.
- Money is a real number, without the rounding of floating point; durations are whole nanoseconds.
- ReconcileAll and EnabledPools beyond the condition under which a pool is reconciled: the loop over pools only repeats
  the pass; that a pool needs a size is not part of it.
- Scaling.NormalizeIsIdempotent: lower-casing covers ASCII letters only.
- Reaper.CloudSweepGuarantee: speaks of machines with the owner's tag and prefix; what the tag of a machine created by
  another deployment with the same controller id means is outside the model.
- Resolvers.Resolver.Cloud: assumes that a record with the same id and update time says the same, as the cache does.
- ClusterObjects.ManifestIsWellFormed: objects outside the bounds that `k8s/crds.yaml` sets are not considered, as the
  API server refuses them; where that is not enforced, an insert gives a zero limit the default of its column
  (`internal/store/models.go:115-121`).
- Standstill.SecondPassLaunchesNothing: asks that no two live rows of the pool have the same registration, that the
  machines created come up, and that the pool's lifetime is not negative; the pool is one that is reconciled.
- Reconcilers.Reconciler.Reconcile: the cluster stands still during a pass, so that its two listings of a kind show the
  same objects unless they fail; and nobody else writes the configuration tables meanwhile.
- StoreCalls.EveryPassKeepsReferences: the store enforces its references, as PostgreSQL and the SQLite files opened by
  `internal/store/store.go:33` do; an in-memory SQLite database is opened without that.
- Highlighting.HighlightingKeepsText: strings stand for byte strings; the decoding of UTF-8 does not matter to either
  format's scanners and is left out.
- Registries, configuration loading and name sanitising (`hclIdent`, `k8sName`, the body of `instanceName`): easy
  members only.

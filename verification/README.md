# A verified model of caramelo's edge, deploys and streams

caramelo runs applications on a machine behind an edge proxy and replaces them blue/green. This
project models its hardest parts and proves what they keep, over every run, every interleaving and
every input.

| files | what they model |
|---|---|
| `Edge`, `Pool`, `PoolRuns`, `PoolTheorems` | the route pool: installs, picks, connections, marks, failure windows, drains and the sweep, as one step function, an invariant, and theorems over runs |
| `Drains`, `Failures`, `Changes` | over runs of it: when a drain is cut and that it is reported, how long a failed target is left out, and what is reported of each change |
| `Counters` | the request counters: a cache of marks and incarnations that agrees with a plain log of requests |
| `RoundRobin` | the round-robin cursor |
| `RoutePool`, `Router`, `Broker` | the classes that change in place: each method is proved against the step function or its own invariant |
| `Rows`, `Pools`, `World`, `Outcomes`, `Deploy`, `DeployTheorems` | a deploy from its build to its end, with every outside call free to fail |
| `ResumeDeploy`, `Crashes`, `SwitchCrashes`, `CrashRuns` | its resumption from the route rows, exactly what is stopped when the daemon dies in the middle of a promotion, a rollback, a switch or the taking back of one, and whole runs that get there |
| `Watch`, `WatchTheorems`, `Polls` | the watch after the switch: at which beat it ends, in readings of the clock, and how; and its polls, down to the requests the edge logged |
| `Replicas`, `Health` | replica numbers over many deploys; the health loop |
| `Expand`, `References`, `Escapes` | the `${...}` expander, what each reference stands for, its secrets-only pass and the validation of variables |
| `Lines`, `Stamp`, `Fleet` | line splitting of a chunked stream, the stamping of a forwarded machine's output, the hub's directory |

Names follow the source, except that a deploy's `fresh` pool is called *incoming* here (`fresh` is a
Dafny keyword). A container is its service and replica number. Clock readings, probe and runtime
results, signals and Store failures are nondeterministic or are inputs, so a theorem about a run
covers every outcome they can have. A world can be declared *calm*: nothing asked of it fails. Calm
worlds are how a run is shown to reach a bad end, not only to be allowed one.

How the pieces fit: a class (`RoutePool`, `Router`, `Broker`, `DeployRun`, `HealthLoop`, `LogWriter`,
`MachineStamp`, `Hub`) has the fields and loops of the source; its `ensures` ties the new state to a
function of the old one, or keeps a `Valid()` that ties the fields to a ghost log; lemmas then prove
the promised properties of those functions and logs.

## What turned out not to hold

Each of these has a run or an input that shows it, and the condition under which the property holds.

* A request may name an exposed service twice. The second pool then holds what the first has just
  brought up, and promoting the deploy stops it (`DeployTheorems.NamedTwicePromoted`). The two sides
  share a container if and only if a service is named twice
  (`DeployTheorems.SidesShareIffNamedTwice`). A deploy that names each exposed service once ends as
  planned through every failure (`DeployTheorems.Deploy`): it stops only what ran before, and then only
  if promoted, or only what it started, and every route shows exactly the old numbers or exactly the new.
* A deploy may be of some services only, but it is resumed from all routes of the environment. Another
  service with active rows is then taken for a new pool, and a rollback stops it and leaves it no
  active row (`Resumes.ResumedOverOthers`). A resumed deploy touches only its own services if and only
  if no other one has an active, held or draining row in its first route
  (`Resumes.TouchesOwnIffQuiet`); with that, a crash anywhere in the watch is harmless
  (`Resumes.DeployThroughCrashes`).
* A daemon that dies in a promotion after any stop, with its rows written or not, leaves a deploy whose
  rollback stops the other side too; with no stop made, or any other verdict, it does not
  (`Crashes.CrashInPromotion`, an if-and-only-if).
* A rollback turns the rows before it stops anything. If the daemon dies after that, the resumed deploy
  has the sides exchanged. `Crashes.CrashInRollback` says exactly when both sides end up stopped.
* The status `watching` is stored before the rows are switched, and those route by route. A pool reads
  back as its own two sides if and only if the first listed route of its service was written, or read so
  before (`SwitchCrashes.FlipReadsBackIff`); otherwise whatever is active there is taken for the new
  side (`SwitchCrashes.CrashInSwitch`, an if-and-only-if for each container).
* A switch that fails is taken back, and its new side stopped, while the stored status is still
  `watching`. A resumed rollback then takes the old side, alone on the routes put back, for the new one.
  `SwitchCrashes.CrashInTakingBack` says of each container exactly when it is stopped.
* Each of these four is reached from the plans and the containers found, for any plans with services named
  once, in a world in which nothing else fails: `CrashRuns.PromotionThenRollback`,
  `CrashRuns.RollbackThenRollback`, `CrashRuns.SwitchThenRollback`, `CrashRuns.TakingBackThenRollback`.
  `CrashRuns.BothSidesStopped` and `CrashRuns.HalfSwitchedStopped` are two of them with every name given.
* A held replica without a port has no row, so a resumed deploy does not know it: the held pool comes
  back whole if and only if every replica of it has a port (`Rows.ResumeKeepsAllIffPorted`,
  `Rows.PortlessIsLost`).
* `$$` is undone by the secrets-only pass, so an escaped reference is expanded by the later pass after
  all (`Expand.EscapedReferenceIsUndone`). Of a text that validation accepts, two passes are one in every
  context with dollar-free secrets if and only if each `$$` is at the end or before a byte that is
  neither `$` nor `{` (`Escapes.TwoPassesAreOneIff`).
* A lookup normalises the host twice, so it returns the route of its pool if and only if normalising
  once is enough (`Routers.LookupFindsItsRoute`, `Routers.TwoDotsMissTheRoute`).
* Reapplying an announcement later changes nothing if and only if every entry that counts has a time of
  its own (`Fleet.ReappliedIff`); `Fleet.Reapplied` gives the result in any case.
* The output of `MachineStamp` is the same for every cut of the stream into writes if and only if the
  stream is steady (`Stamps.CutsDoNotMatter`). Events behind other text and events over 64 KiB are not
  (`Stamps.CutsCanMatter`, `Stamps.LongEventsCanPass`); events on lines of their own are
  (`Stamps.EventsOnOwnLines`).
* After a passed probe a replica's rows are all active if and only if they were, or it had been taken
  down and the Store dealt with every row that was not (`Health.HealthLoop.FoundHealthy`). A restore the
  Store refuses, and one forgotten by a restarted daemon, is never made up for by further passed probes
  (`Health.AfterRefusal`, `Health.AfterRestart`).
* A deploy of width w fits in 1..2w if and only if at most w replicas ran, all within 1..2w
  (`Replicas.FitsIff`); after a promoted one of width w, the next fits if and only if it is not narrower
  (`Replicas.NextFitsIff`).

## Model

| member | source | states |
|---|---|---|
| Edge.ValidateTargets | internal/edge/edge.go:272-285 | accepts a route's targets if and only if each has a replica number, a port in range and a known state, and no replica is listed twice |
| Edge.ValidateTable | internal/edge/edge.go:252-288 | accepts a table if and only if every route is valid and supported and no two hosts normalise alike |
| PoolRuns.StepInv | internal/edge/pool.go:66-317 | every step keeps the pool's invariant: sorted distinct replicas, distinct incarnations, ids below the counter, a draining target not yet reported has a connection |
| PoolRuns.InstallOrigin | internal/edge/pool.go:79-122 | every slot after a push is a kept slot of the same replica and port, or a new incarnation |
| PoolRuns.StepEvolves | internal/edge/pool.go:66-317 | across any step a target that stays has exactly the ids it had, plus the one begun, minus those ended or cut |
| PoolRuns.DrainedExactly | internal/edge/pool.go:66-317 | a step returns one drained event for a target if it became drained and reported in that step, and none otherwise |
| PoolTheorems.Reachable | internal/edge/pool.go:60-317 | every state of every run satisfies the invariant |
| PoolTheorems.OncePerEpisode | internal/edge/pool.go:186-317 | between two drained events of one incarnation, in any interleaving, it was out of draining |
| PoolTheorems.OncePerStep | internal/edge/pool.go:186-317 | no single step returns two drained events for a target |
| PoolTheorems.EveryDrainEnds | internal/edge/pool.go:279-317 | a draining target not yet reported has an open connection; the end of the last one reports it, and so does a sweep at the deadline |
| Drains.DrainBegan | internal/edge/pool.go:105-115 | in every run, a drain that is not over began with a push or a mark that took the target into draining, and counts from the time of it |
| Drains.CutIffOverdue | internal/edge/pool.go:291-317 | in every run, a sweep cuts a drain that is not over, all its connections at once and with one event that says so and how many, if and only if the drain has passed since that step; before, it leaves the target as it is |
| Drains.CutsOnlyOverdue | internal/edge/pool.go:291-317 | a connection that a sweep closes was of a target that entered draining at least the drain ago |
| Drains.DrainAsPushed | internal/edge/pool.go:71-77 | the drain is that of the last push: the route's if positive, else the edge's if positive, else thirty seconds |
| Drains.ReportedIff | internal/edge/pool.go:107-130 | a draining target is marked as reported if and only if its drained event was returned since it entered draining |
| Drains.LastEndEvent | internal/edge/pool.go:279-289 | the end of the last connection returns one drained event, with nothing in flight and no deadline |
| PoolTheorems.OpenIsBegunNotClosed | internal/edge/pool.go:246-289 | the open ids of a target are exactly those begun on its incarnation and neither ended nor cut since |
| PoolTheorems.NeverReused | internal/edge/pool.go:246-257 | an issued id that is open nowhere is open nowhere in any later state |
| PoolTheorems.OnlyOnItsIncarnation | internal/edge/pool.go:89-104 | an id is only ever open on the incarnation it was issued for |
| PoolTheorems.LateEndIsHarmless | internal/edge/pool.go:259-289 | ending an id that is no longer open changes nothing and reports nothing, even if its replica number was taken over |
| PoolTheorems.RunAgrees | internal/edge/counts.go:49-99 | in every reachable state the counters and marks agree with the log of requests and snapshots |
| PoolTheorems.CountsMatchTheLog | internal/edge/counts.go:101-139 | in every reachable state the answer for any time is the plain count of the log's window, per live target, unrouted, and total: how many requests there are, how many were answered 500 or above, how many could not be connected |
| PoolTheorems.ClampsNeverFire | internal/edge/counts.go:21-34 | no mark ever exceeds the current counters it is subtracted from |
| PoolTheorems.MarksKept | internal/edge/counts.go:49-58 | the marks kept are of the last sixty-four installs, or of all of them if there were fewer |
| Counters.StepAgrees | internal/edge/counts.go:49-99 | each step keeps the agreement of counters and log; a request is charged to the incarnation that holds the replica at that moment |
| Counters.WindowStartsAtChosen | internal/edge/counts.go:60-75 | with a clock that does not go back, the window starts at the latest kept mark not after the given time, else at the oldest kept |
| Counters.TargetCountsAreLogged | internal/edge/counts.go:121-137 | a target's counts are the requests logged against its incarnation in the window |
| Counters.UnroutedCountsAreLogged | internal/edge/counts.go:101-120 | unrouted counts are the unrouted requests of the window |
| Counters.TotalIsLogged | internal/edge/counts.go:101-139 | the host total counts every unrouted request and every request of a live target in the window once |
| Counters.Replicas | internal/edge/control.go:135-147 | adds up the counts of the named replicas |
| Counters.ErrorsWithinRequests | internal/edge/control.go:108-147 | errors of the unrouted part and of any choice of replicas never exceed their requests |
| RoundRobin.PickRotates | internal/edge/pool.go:148-166 | a pick takes the head of the cycle of eligible positions from the cursor, and the next cursor's cycle is that cycle rotated |
| RoundRobin.EachEligibleOnce | internal/edge/pool.go:148-166 | with an unchanged eligible set of size n, any n picks in a row return each eligible target exactly once, from any cursor |
| RoundRobin.PickFailsIffNoneEligible | internal/edge/pool.go:148-166 | a pick fails if and only if no target is eligible |
| RoundRobin.PushKeepsTurn | internal/edge/pool.go:118-122 | a push that leaves the same positions eligible leaves the rotation where it was |
| Failures.FailedUntil | internal/edge/pool.go:211-216 | in every run, a target is left out until five seconds after it failed last, and not at all if it never has |
| Failures.PickReturnsWhatItMay | internal/edge/pool.go:148-166 | in every run, a pick returns a target that is active, not to be skipped and not failed within the last five seconds, and fails only if there is none |
| RoutePools.RoutePool.constructor | internal/edge/pool.go:60-64 | a new pool is an install over nothing and starts valid |
| RoutePools.RoutePool.Install | internal/edge/pool.go:66-140 | in place, a push leaves exactly the installed pool and returns its events; the pool stays valid |
| Changes.ChangedExactly | internal/edge/pool.go:88-117 | a step reports a target if and only if it is new or its state changed: once, at its time, and as it now is |
| RoutePools.RoutePool.MergeTargets | internal/edge/pool.go:79-117 | the merge loop over an index of the old targets computes the merge; new incarnations are handed out in order |
| RoutePools.RoutePool.SettleTargets | internal/edge/pool.go:124-130 | targets draining with nothing in flight are reported and marked, in order |
| RoutePools.RoutePool.TakeSnapshot | internal/edge/counts.go:49-58 | appends a mark of every counter and drops the oldest beyond the limit |
| RoutePools.RoutePool.Pick | internal/edge/pool.go:148-166 | the loop over the ring picks the step function's target and moves the cursor past it |
| RoutePools.RoutePool.Begin | internal/edge/pool.go:246-257 | issues the next id on the replica, or fails if there is none; the pool stays valid |
| RoutePools.RoutePool.Release | internal/edge/pool.go:279-289 | closes an id if it is open and reports the target if that was the last of a drain |
| RoutePools.RoutePool.End | internal/edge/pool.go:259-268 | ends an id on a replica, or does nothing if either is unknown |
| RoutePools.RoutePool.MarkStart | internal/edge/pool.go:198-201 | a start mark opens an id |
| RoutePools.RoutePool.MarkDone | internal/edge/pool.go:202-210 | a done mark ends one open id, one with a cancel function only if all have one, and does nothing when none is open |
| RoutePools.RoutePool.MarkFail | internal/edge/pool.go:211-216 | a fail mark keeps the replica out of picks for the failure window |
| RoutePools.RoutePool.MarkState | internal/edge/pool.go:217-240 | a state mark changes a valid state once, reports the change and starts or ends a drain |
| RoutePools.RoutePool.Sweep | internal/edge/pool.go:291-317 | cuts every connection of a target draining past its deadline and reports it |
| RoutePools.RoutePool.CountRequest | internal/edge/counts.go:77-92 | charges the target that holds the replica now, or the host's unrouted counts; the counters go on agreeing with the log, in which only an answer of 500 or above counts as one |
| RoutePools.RoutePool.CountUnrouted | internal/edge/counts.go:94-99 | charges the host's unrouted counts |
| RoutePools.RoutePool.MarkBefore | internal/edge/counts.go:60-75 | finds the chosen mark: the latest not after the time, else the oldest |
| RoutePools.RoutePool.Counts | internal/edge/counts.go:101-139 | in every valid state the answer is the plain count of the log's window |
| RoutePools.RoutePool.Live | internal/edge/pool.go:319-327 | shows each target with the number of its open connections |
| Routers.PushHosts | internal/edge/router.go:46-62 | after a push the pools' keys are exactly the table's hosts |
| Routers.PushDelivers | internal/edge/router.go:36-72 | each host's pool shows each target of its route, sorted; a replica that was there at its port keeps its connections, incarnation, counters and failure window, and its state since when it had it; any other starts afresh, since when the table says or now |
| Routers.PushReports | internal/edge/router.go:46-72 | a push returns the events of the installs over pools there were, all of them, and none of a new pool |
| Routers.LookupFindsItsRoute | internal/edge/router.go:85-95 | a lookup returns the route of its pool if and only if the host normalises once for all |
| Routers.TwoDotsMissTheRoute | internal/edge/edge.go:290-300 | a host that ends in two dots has a pool and is not given its route |
| Routers.Router.Install | internal/edge/router.go:36-72 | all or nothing: an invalid table changes nothing, a valid one leaves exactly its pools, keeping the objects of hosts that stay |
| Routers.Router.Lookup | internal/edge/router.go:85-95 | finds a pool if and only if the normalised host has one |
| Routers.Router.Table | internal/edge/router.go:117-131 | the pushed routes, each with its pool's live targets |
| Routers.Router.Sweep | internal/edge/router.go:153-165 | sweeps every pool once, each by its own step, and returns the events to publish in that order |
| Broker.OfferKeeps | internal/edge/broker.go:33-57 | offering an event keeps what a subscriber is owed, whether it has room, lags, or lags for the first time |
| Broker.FallsBehindIff | internal/edge/broker.go:46-56 | a subscriber is given up if and only if 256 events are waiting for it already; otherwise it gets the event |
| Broker.DeliveredIsPrefix | internal/edge/broker.go:74-124 | what a subscriber received is always a prefix of the filtered history and then the events published since, with no gap, repeat or reordering |
| Broker.DrainedIsComplete | internal/edge/broker.go:74-124 | once it has taken everything, it has all of them up to where it lagged, and all if it never did |
| Broker.FromFilters | internal/edge/broker.go:59-72 | the replay holds every kept event not before the time, as often as the history does, and no other |
| Broker.KeptAreNewest | internal/edge/broker.go:43-45 | what is kept of the history is the newest 512 events, or all of them if there are fewer |
| Broker.Stamped | internal/edge/broker.go:33-36 | an event without a time gets the present one and is otherwise unchanged |
| Broker.Broker.Publish | internal/edge/broker.go:33-57 | appends to the history, keeping the last 512, and offers the event to every registered subscriber without blocking |
| Broker.Broker.Subscribe | internal/edge/broker.go:74-105 | takes the replay and registers in one step, so nothing falls between; a closed broker refuses |
| Broker.Broker.Take | internal/edge/broker.go:106-124 | a consumer receives its next event, if any, and the order is kept |
| Broker.Broker.Close | internal/edge/broker.go:126-140 | closes every open channel once and refuses anything after |
| Replicas.FreeIndexesAreFree | internal/env/replicas.go:103-115 | free numbers are free, distinct, increasing and the lowest there are |
| Replicas.FreeIndexes | internal/env/replicas.go:103-115 | the loop returns the n lowest numbers not taken |
| Replicas.NumberedRunning | internal/env/replicas.go:84-92 | only running containers with a number count as taken |
| Replicas.FitsIff | internal/env/deploy_run.go:311-338 | old and fresh numbers of a deploy of width w are together within 1..2w if and only if the old ones are and are at most w |
| Replicas.OneDeployFits | internal/env/deploy_run.go:311-338 | whichever pool wins a deploy that fits is again at most w numbers within 1..2w |
| Replicas.NextFitsIff | internal/env/deploy_run.go:311-338 | after a promoted deploy of width w, one of width v fits if and only if v is not smaller |
| Replicas.EveryDeployFits | internal/env/destroy.go:161-168 | over any deploys and rollbacks whose width never shrinks each fits in its 1..2w, so enumerating that range finds every container |
| Replicas.ShrinkingLeavesTheRange | internal/env/destroy.go:161-168 | two replicas promoted and then a deploy of one: the numbers leave the range |
| Rows.ActiveBeside | internal/env/rollout.go:190-204 | the rows of an active pool beside an inactive one show exactly the active pool |
| Rows.ResumeReads | internal/env/deploy_watch.go:576-591 | reading rows back gives exactly the active replicas as incoming and exactly the held or draining ones as held |
| Rows.ResumeRebuilds | internal/env/deploy_watch.go:557-603 | the rows of a switched pool read back as the same two sides, drained or not |
| Rows.ResumeKeepsAllIffPorted | internal/env/rollout.go:386-409 | the held side comes back whole if and only if every held replica has a port |
| Rows.NormalisingKeepsActive | internal/env/deploy_watch.go:598-602 | recording draining rows again as held leaves the active set as it was |
| Rows.PortlessIsLost | internal/env/rollout.go:386-409 | one held replica without a port: its route lists only the new one, and nothing held is read back |
| Pools.WantServing | internal/env/deploy_run.go:418-434 | the rows written for serving pools show the incoming side on every route and tell the two sides apart |
| Pools.WantGivingUp | internal/env/deploy_watch.go:319-331 | the rows written by a rollback show the held side on every route |
| Pools.WantBack | internal/env/deploy_run.go:469-487 | the rows written when a switch is taken back show the held side on every route |
| World.World.SetTargets | internal/state/edge.go:195-214 | replaces a route's rows by exactly the given replicas in one transaction, or leaves them |
| World.World.RecordTargets | internal/env/rollout.go:386-409 | records a pool under each route of its service up to the first failure: the writes made are exactly the first so many, and the rows are the old ones with those played over them |
| World.PrefixRecords | internal/env/deploy_run.go:532-545 | with routes apart, any number of the first writes of a side leaves each route its old rows or the wanted ones, and all of them the wanted |
| World.World.StopReplica | internal/env/rollout.go:288-296 | stops and removes one container and touches no other |
| World.World.BringUp | internal/env/rollout.go:145-173 | brings up one container, which may exist even when it fails |
| World.World.LiveReplicas | internal/env/replicas.go:47-92 | lists the running numbered replicas of a service, each once |
| Deploys.DeployRun.RemoveFresh | internal/env/deploy_run.go:650-665 | stops exactly the incoming containers of exposed services and touches no other |
| Deploys.DeployRun.PushPools | internal/env/deploy_run.go:532-545 | records both sides of each exposed pool in turn: the writes made are exactly the first so many of the planned ones, all of them if it succeeds |
| Deploys.DeployRun.StopHeld | internal/env/deploy_watch.go:255-269 | stops exactly the held containers and writes no row; what it counts is positive if a stop newly succeeded, and only if one of them has |
| Deploys.DeployRun.Promote | internal/env/deploy_watch.go:250-297 | stops exactly the held side; the rows show the incoming side throughout; once a stop succeeds and with a Store that answers, every route lists exactly the incoming replicas, with their ports, active; if none does the rows stay as they are |
| Deploys.DeployRun.Rollback | internal/env/deploy_watch.go:314-380 | shows the held side on every route before it stops exactly the incoming one, and with a Store that answers leaves exactly the held replicas listed; if the first cannot be recorded it stops nothing and fails |
| Deploys.DeployRun.GiveBack | internal/env/deploy_watch.go:319-339 | the first half of a rollback: if it succeeds, every route lists exactly the held replicas, active, and the incoming ones, draining |
| Deploys.DeployRun.PutInPlace | internal/env/deploy_watch.go:354-359 | the last of it: the rows go on showing the held side, whatever of it is recorded, and with a Store that answers list exactly the held replicas, active |
| Deploys.DeployRun.Fail | internal/env/deploy_run.go:636-648 | before the push: stops exactly the incoming side and writes nothing; after it: a rollback |
| Deploys.DeployRun.SetStatus | internal/env/deploy_run.go:596-602 | a status that cannot be stored fails the deploy |
| Deploys.DeployRun.RecordFlip | internal/env/deploy_run.go:418-438 | makes incoming active and held draining, pool by pool, up to the first failure; the writes made are exactly the first so many of the switch |
| Deploys.DeployRun.UnrecordFlip | internal/env/deploy_run.go:469-487 | puts every route back to its held side; with a Store that answers, all of them |
| Deploys.DeployRun.FailFlip | internal/env/deploy_run.go:464-467 | a switch that fails is turned back, with a Store that answers to exactly the held replicas, and only the incoming side is stopped |
| Deploys.DeployRun.ReplaceUnexposed | internal/env/deploy_run.go:388-413 | services not behind the edge are replaced first; a failure there stops only the incoming side |
| Deploys.DeployRun.SwitchRows | internal/env/deploy_run.go:418-441 | if it succeeds every route lists exactly the incoming replicas, active, and the held ones, draining; in any case no container is touched |
| Deploys.DeployRun.Flip | internal/env/deploy_run.go:385-462 | either the rows show the incoming side, tell both sides apart and no container was touched, or the deploy failed and was turned back |
| Deploys.DeployRun.Hold | internal/env/deploy_run.go:489-530 | drained replicas are held; recording that, wholly, partly or not at all, leaves rows that show the same two sides, and with a Store that answers exactly the incoming replicas, active, and the held ones, held |
| Deploys.DeployRun.StartPool | internal/env/deploy_run.go:295-343 | the held side is what runs of the service at its turn, the incoming one has the lowest free numbers beside it, each replica of either has the port its layout gives its number, and a failure cleans up exactly what was started |
| Deploys.DeployRun.Start | internal/env/deploy_run.go:286-345 | whatever services are named, each exposed one gets as many replicas as wanted beside what ran at its turn, all on the ports of its layout: nothing is stopped and no row written, or the deploy failed, its pools are those of the first plans, and exactly what it started was stopped |
| Deploys.DeployRun.Observe | internal/env/deploy_watch.go:16-131 | the verdict of the watch decides: promoted, rolled back, or still watching with nothing changed |
| Deploys.DeployRun.RunDeploy | internal/env/deploy_run.go:112-196 | over every run, whatever services are named: the pools are those planned, laid out as planned, and apart if services are named once; promoted stops exactly the held side, rolled back exactly the incoming one, failed the incoming one or nothing, watching nothing, and no other route's rows change; with pools apart every write shows one whole side, traffic turns at most once each way, and the rows left show the side the status says |
| Deploys.PlannedApart | internal/env/up.go:324-341 | pools of services named once, on routes of their own, are apart |
| DeployTheorems.SidesByNumber | internal/env/deploy_run.go:295-343 | of each exposed service, the held replicas with a row are exactly what ran, and the incoming ones exactly the lowest free numbers, that the layout has a port for |
| DeployTheorems.AllNumbers | internal/env/deploy_run.go:295-343 | with a port for every number these are all that ran and all that was wanted, and no number is in both |
| DeployTheorems.SafeIsPlanned | internal/env/deploy_run.go:112-196 | an end of pools laid out as planned, in terms of numbers: one of what ran and what was started is stopped, traffic turns at most once each way, every route shows exactly the old numbers or exactly the new ones or what it showed, and the side the status says |
| Outcomes.ExactPromoted | internal/env/deploy_watch.go:268-274 | the exact rows of a watched deploy through a promotion |
| Outcomes.ExactWentBack | internal/env/deploy_watch.go:319-359 | and through a rollback, recorded or not |
| DeployTheorems.ExactIsPlanned | internal/env/deploy_run.go:112-196 | the exact rows in terms of the plans: watched, the new numbers active and the old ones held; promoted, once a stop succeeded, the new ones alone; rolled back, the old ones alone, active; each with the port of the layout |
| DeployTheorems.Deploy | internal/env/deploy_run.go:112-196 | every deploy of services named once, through every failure and hand-off, ends so, and with a Store that answers has exactly those rows |
| DeployTheorems.SidesShareIffNamedTwice | internal/env/up.go:324-341 | the two sides share a container if and only if an exposed service is named again after wanting a replica |
| DeployTheorems.NamedTwicePromoted | internal/env/deploy_watch.go:255-269 | a service named twice, nothing failing: the promotion stops a replica it has just started |
| DeployTheorems.EndsAsAfter | internal/env/deploy_watch.go:250-372 | with every stop succeeding, what runs of a service after a deploy is its new numbers if promoted and the old ones if rolled back |
| DeployTheorems.BothPoolsAreAccepted | internal/edge/edge.go:272-285 | the targets of both pools of a service together are accepted by the edge: each valid, no replica twice |
| Outcomes.NeverBoth | internal/env/deploy_run.go:636-665 | with pools apart, no deploy stops a container of each side |
| Outcomes.OldSurvives | internal/env/deploy_watch.go:314-372 | unless promoted, everything that ran before a deploy still runs after it, whatever services it names |
| Outcomes.NewSurvives | internal/env/deploy_watch.go:250-297 | with pools apart, a promoted deploy leaves every replica it started running and stopped only what ran before |
| Outcomes.EndPromoted | internal/env/deploy_watch.go:268-274 | from the recorded flip through a promotion every write and the final rows show exactly the incoming replicas |
| Outcomes.EndWentBack | internal/env/deploy_watch.go:319-359 | from a watched deploy through a rollback: writes turn back once, and the final rows show exactly the held replicas |
| Outcomes.EndNotSwitched | internal/env/deploy_run.go:464-487 | a deploy that fails before the push leaves its rows as they were or, given a Store that answers, back at the held replicas |
| Resumes.ReadTargets | internal/env/deploy_watch.go:576-591 | the loop sorts a route's rows into the two sides |
| Resumes.ReadPools | internal/env/deploy_watch.go:557-597 | one pool for each service listed, with its routes in order and read from the first; normalises if and only if a row there was draining |
| Resumes.ReadSides | internal/env/deploy_watch.go:576-591 | from any rows, the containers on each side of a resumed deploy are exactly those its services' first routes show active, and held or draining |
| Resumes.TouchesOwnIffQuiet | internal/env/deploy_watch.go:557-597 | a resumed deploy has only containers of its own services if and only if no other service shows an active, held or draining row |
| Resumes.ResumedIsRebuilt | internal/env/deploy_watch.go:557-603 | rows that were switched read back, for each service of the deploy, as the routes, incoming and held replicas there were |
| Resumes.ResumeRun | internal/env/deploy_watch.go:524-604 | from any rows: well-formed pools read from them; it records again exactly the first so many of their writes, none unless a row drained, and all of them if one did and the Store answers |
| Resumes.ResumedStopsRead | internal/env/deploy_watch.go:250-372 | a resumed deploy stops exactly what the rows showed held if promoted, exactly what they showed active if rolled back, and nothing otherwise |
| Resumes.ResumedOverOthers | internal/env/deploy_watch.go:557-597 | nothing failing, a resumed deploy rolled back stops every active container of a service outside it and leaves it no active row |
| Resumes.TakeOver | internal/env/deploy_watch.go:487-501 | a resumed watch starts its window again, detached, and ends as any watch |
| Resumes.DeployThroughCrashes | internal/env/deploy_watch.go:444-604 | through any number of crashes during the watch a deploy that names services once, other services quiet, ends as an uninterrupted one may: one of what ran and what was started is stopped, and the routes show exactly the numbers of the side the status says |
| Crashes.HeldStoppedIff | internal/env/deploy_watch.go:557-597 | the held side is touched if and only if it was before the crash or the resumed verdict takes it for the side to stop |
| Crashes.IncomingStoppedIff | internal/env/deploy_watch.go:557-597 | the same of the incoming side |
| Crashes.CrashInPromotion | internal/env/deploy_watch.go:255-295 | after any number of its stops and writes and with any resumed verdict, both sides are stopped if and only if something was stopped before the crash, both sides exist and the resumed deploy is rolled back |
| Crashes.CrashInRollback | internal/env/deploy_watch.go:319-359 | after any number of its writes and stops and with any resumed verdict, exactly when both sides are stopped, in terms of the pools already turned and the stops made |
| SwitchCrashes.CrashInSwitch | internal/env/deploy_run.go:415-435 | after any number of the writes of a switch and with any resumed verdict, each container of the deploy's services is stopped if and only if the verdict takes it: by its sides if the first route of its service was written, else by what that route showed before; and, where those routes showed the old pools alone, exactly when each side is stopped |
| SwitchCrashes.FlipReadsBackIff | internal/env/deploy_run.go:418-435 | after any number of the writes of a switch a pool reads back as its own two sides if and only if the first listed route of its service was written or read so before; where it showed the old pool alone, that is only if neither side has a row |
| SwitchCrashes.BackShown | internal/env/deploy_run.go:469-483 | the first route of a service, after any of the writes that take a switch back, shows the old pool alone if it was among them, and what it showed otherwise |
| SwitchCrashes.UnrecordSome | internal/env/deploy_run.go:469-487 | puts routes back up to a limit, a failure ending only its own pool: every write made is one of those planned, and in a calm world all are |
| SwitchCrashes.CrashInTakingBack | internal/env/deploy_run.go:464-487 | a switch that failed after any number of writes, a crash after any number of the writes and stops that take it back, and any resumed verdict: each container is stopped if and only if it already was or the verdict takes what the first route of its service shows; and, where those routes showed the old pools alone, exactly when each side is stopped |
| Crashes.BothByPromotion | internal/env/deploy_watch.go:255-295 | nothing failing, a promotion dead after any stop and a resumed rollback stop both sides |
| Crashes.BothByRollback | internal/env/deploy_watch.go:337-359 | nothing failing, a rollback dead after any stop and a resumed rollback stop both sides |
| CrashRuns.PromotionThenRollback | internal/env/deploy_watch.go:255-295 | any plans with services named once and something running, nothing failing: deployed, interrupted in its promotion after any stop, resumed and rolled back, it stops a container that ran before and one it started |
| CrashRuns.RollbackThenRollback | internal/env/deploy_watch.go:337-359 | the same of a rollback interrupted after any stop |
| CrashRuns.TakingBackThenRollback | internal/env/deploy_run.go:464-487 | the same of a switch that failed after any number of writes, taken back and interrupted after any stop |
| CrashRuns.SwitchThenRollback | internal/env/deploy_run.go:418-435 | interrupted when the first j services are switched, resumed and rolled back, it stops every new replica of those and every replica that the first routes of the others show active |
| CrashRuns.BothSidesStopped | internal/env/deploy_watch.go:255-274 | one service, replica 1 running: deployed, promoted, interrupted and resumed, both replica 1 and replica 2 are stopped |
| CrashRuns.SwitchedIffBefore | internal/env/deploy_run.go:418-435 | when the first j pools are recorded and no other, the first listed route of a service is written if and only if its pool is one of them |
| CrashRuns.HalfSwitchedStopped | internal/env/deploy_run.go:418-435 | two services, replica 1 of each running: after the first of the two writes of their switch and a resumed rollback, the new replica of one and the old replica of the other are stopped |
| Watch.WatchBeats | internal/env/deploy_watch.go:16-69 | the watch loop decides as its function says: breach, replica down, window over, then the signal |
| Watch.AwaitBeats | internal/env/deploy_watch.go:91-114 | the waiting loop looks at the signal first and never decides by time |
| Watch.WatchToEnd | internal/env/deploy_run.go:162-196 | hand-offs and a commander that leaves compose the loops into one life |
| Watch.PollMovesForward | internal/env/deploy_watch.go:175-205 | where counting starts only moves forward, stays at or after the switch and never passes the clock |
| Watch.LifeCountsForward | internal/env/deploy_watch.go:175-205 | the same over a whole watch with all its hand-offs |
| Watch.WatchIsExplained | internal/env/deploy_watch.go:16-69 | every verdict is explained by its last beat, and every earlier beat passed |
| Watch.AutomaticWatchDecides | internal/env/deploy_watch.go:46-56 | an automatic watch has decided by the first beat 2 x window after the switch, however often the edge restarted |
| Watch.AutomaticLifeDecides | internal/env/deploy_watch.go:120-131 | so does a whole watch, through the commander leaving |
| Watch.UnsignalledPromotion | internal/env/deploy_watch.go:16-69 | promoted without a signal: not manual, no beat breached, no replica seen down, and counted >= window or elapsed >= 2 x window |
| Watch.UnsignalledLife | internal/env/deploy_watch.go:120-131 | the same over a whole watch with its hand-offs |
| Watch.ManualPromotionIsSignalled | internal/env/deploy_watch.go:91-114 | under a manual policy a promotion has consumed a promote signal |
| WatchTheorems.EndsIffDue | internal/env/deploy_watch.go:30-69 | with no beat breached, down or signalled, a watch has ended by a beat if and only if by then the window had passed since counting started, or twice the window since the switch |
| WatchTheorems.EndsAtFirstDecision | internal/env/deploy_watch.go:16-69 | a watch ends at the first beat that decides and as it decides: a breach, a replica down, the time, the signal, in this order |
| WatchTheorems.LatestIsLatest | internal/env/deploy_watch.go:175-205 | counting starts at the latest of the switch and of what the edge said of its own start, never later than the reading |
| WatchTheorems.CleanWatchPromotes | internal/env/deploy_watch.go:46-56 | with an edge that never restarts, a clean automatic watch promotes at the first beat a window after the switch |
| WatchTheorems.BreachedIff | internal/env/deploy_watch.go:30-36 | a poll is a breach if and only if there is a limit, at least twenty requests were seen and more than the allowed part of them failed |
| WatchTheorems.AwaitIsExplained | internal/env/deploy_watch.go:91-114 | while waiting by hand a signal decides at once, else the first beat that is breached or sees a replica down rolls back, and nothing else ends the wait |
| WatchTheorems.LifeGoesOn | internal/env/deploy_run.go:162-196 | a watch that is handed over or left by its commander is taken up again: no whole watch ends there |
| Polls.FindHost | internal/edge/control.go:95-106 | finds the first host that normalises like the one asked for |
| Polls.Poll | internal/env/deploy_watch.go:153-171 | adds up the fresh replicas of each exposed pool and what no target took, skipping hosts the edge lacks |
| Polls.PollIsLogged | internal/env/deploy_watch.go:146-171 | from pools in any reachable state, a poll counts exactly the requests logged against the fresh incarnations and those no target took, since the chosen install |
| Polls.RateIsARate | internal/env/deploy_watch.go:153-171 | from pools in any reachable state, the polled error rate is from 0 to 1 |
| Polls.PromotedWithinPolicy | internal/env/deploy_watch.go:30-50 | promoted without a signal: at every beat that polled the edge, the requests logged were too few to judge or their errors within the policy |
| Health.RestartsAreEarned | internal/env/health_loop.go:200-287 | every restart follows at least the limit of failed probes of that replica with no pass and no successful restart between |
| Health.StreakIsACount | internal/env/health_loop.go:383-397 | the failure count is the plain number of failed probes since the last thing that clears it |
| Health.RestoresAreEarned | internal/env/health_loop.go:239-252 | a row goes back to active only after a passed probe of a replica that reached the limit and was taken down |
| Health.LostRestore | internal/env/health_loop.go:239-252 | after a pass of a replica that is not down, a row becomes active again only after the limit is reached once more |
| Health.HealthLoop.SetTargetState | internal/env/health_loop.go:350-377 | moves only the replica's own rows, never a held one; all of them show the state if and only if those the Store did not get to already did |
| Health.HealthLoop.FoundHealthy | internal/env/health_loop.go:239-252 | after a pass all rows are active if and only if they were, or the replica was down and those the Store did not get to already were |
| Health.HealthLoop.FoundUnhealthy | internal/env/health_loop.go:254-287 | at the limit a replica leaves the pool the first time, in as many rows as the Store answers for, and is restarted each time; a restart clears the count |
| Health.PassAgain | internal/env/health_loop.go:239-252 | any number of passed probes of a replica that is not down change no row |
| Health.AfterRefusal | internal/env/health_loop.go:239-252 | taken down, found healthy while the Store refuses, and any number of times after: the row is unhealthy still |
| Health.AfterRestart | internal/env/health_loop.go:39-55 | a restarted daemon restores no row, however many probes pass |
| Health.HealthLoop.Replica | internal/env/health_loop.go:200-237 | one pass over a replica keeps the log justified and every held row held |
| Health.HealthLoop.HeldReplicas | internal/env/health_loop.go:180-198 | lists exactly the replicas some route holds |
| Health.HealthLoop.Environment | internal/env/health_loop.go:122-178 | a whole pass leaves held replicas alone, with no probe, no restart and no row, and probes, in order and once each, exactly the listed ones that are not held and are to be probed, up to where it fails |
| Expand.MapRefs | internal/config/expand.go:81-120 | the index loop computes the token-by-token meaning, with the same first failure |
| Expand.NoDollarIsItself | internal/config/expand.go:81-84 | a string without a dollar expands to itself |
| Expand.EscapeRoundTrip | internal/config/expand.go:81-120 | doubling every dollar and expanding is the identity |
| Expand.ScanRenders | internal/config/expand.go:81-120 | scanning the text of canonical tokens gives the tokens back |
| References.ReferenceExpands | internal/config/expand.go:271-344 | every reference, in every context and text, is replaced by what it stands for: the port, the names, an address, a password or a secret; where it stands for nothing the expansion fails with that error |
| References.OnlyReferences | internal/config/expand.go:271-296 | nothing else resolves |
| References.SecretFillsIn | internal/config/expand.go:124-155 | the secrets-only pass fills in exactly the secrets that are set and the passwords, that are set, of declared dependencies, and leaves every other reference as it is written |
| References.ItoaReads | internal/config/expand.go:273-274 | a port as written reads back as its number, without leading zeros |
| Expand.SecretRefAgrees | internal/config/expand.go:124-155 | what the secrets-only pass fills in, a full expansion would have filled in the same |
| Expand.TwoPassesAreOne | internal/config/expand.go:68-155 | secrets first and the rest later gives the same value or the same failure as one pass, for harmless escapes, dollar-free secrets and declared dependencies the context has |
| Expand.TwoPassesAreOneWithoutEscapes | internal/config/expand.go:68-155 | in particular for every string without `$$` |
| Escapes.TwoPassesAreOneIff | internal/config/expand.go:68-155 | of text that validation accepts: secrets first and the rest later is one pass, in every context that declares its names with dollar-free secrets, if and only if every `$$` is at the end or before a byte that is neither `$` nor `{` |
| Escapes.OnceLeads | internal/config/expand.go:81-120 | expanded once, text begins with as many dollars as it has first tokens that stand for one |
| Escapes.AgainLeads | internal/config/expand.go:81-120 | expanded, n first dollars become half as many, rounded down before an open brace and up otherwise |
| Expand.EscapedReferenceIsUndone | internal/config/expand.go:124-155 | for an escaped reference the two differ unless the reference resolves to its own text |
| Expand.ValidationIsSound | internal/config/config.go:408-430 | accepted text fails at run time only over a missing secret or password |
| Expand.ValidationIsExact | internal/config/config.go:408-430 | with every secret set and the declared names, text is accepted if and only if it expands |
| Expand.ValidateVars | internal/config/config.go:408-430 | accepts variables if and only if every name is well formed and every value is accepted |
| Lines.RawIsTheStream | internal/env/logs.go:165-178 | lines with their ends put back, and the rest, are the stream, and no end is inside a line |
| Lines.OnlyOneSplit | internal/env/logs.go:165-178 | no other list of lines makes up the stream |
| Lines.LogWriter.Write | internal/env/logs.go:165-178 | after a write of any size the lines out are those of all that was written |
| Lines.LogWriter.Flush | internal/env/logs.go:180-186 | a flush adds the unfinished line as it is |
| Lines.LogAll | internal/env/logs.go:165-186 | however a stream is cut into writes, its lines come out |
| Lines.EitherEnd | internal/env/logs.go:175 | lines that end in LF and lines that end in CR LF are shown alike |
| Stamps.MachineStamp.Write | internal/api/forward.go:88-107 | one write stamps the lines it completes and keeps or passes on the partial one |
| Stamps.MachineStamp.PassPartial | internal/api/forward.go:111-130 | a partial line is kept if it is blank, or may be an event of at most 64 KiB |
| Stamps.PartialKeptIff | internal/api/forward.go:111-119 | that is, if and only if it is all spaces, tabs and line ends, or an open brace is the first other byte and it is at most 65536 bytes long |
| Stamps.MachineStamp.Flush | internal/api/forward.go:132-141 | a flush writes what is kept, stamped if it can be |
| Stamps.OutputInSegments | internal/api/forward.go:88-155 | the output is the input in order, in pieces each verbatim or stamped, for every cut into writes |
| Stamps.NothingToStamp | internal/api/forward.go:88-155 | with nothing to stamp the output is the input |
| Stamps.CutsDoNotMatter | internal/api/forward.go:88-155 | the output is the same for every cut into writes if and only if the stream is steady: wherever the first part of a line would be passed on, what is left becomes what it would have been anyway |
| Stamps.CutInLine | internal/api/forward.go:111-130 | the exact output of a stream cut inside a line after a part that is passed on |
| Stamps.BracedIsSteady | internal/api/forward.go:111-119 | a line that opens with a brace after any blanks, and is kept whole, is steady |
| Stamps.EventsOnOwnLines | internal/api/forward.go:88-155 | a stream of ended lines, each an event's own within the limit or without an event, comes out line by line, stamped where it is one, for every cut into writes |
| Stamps.CutsCanMatter | internal/api/forward.go:111-130 | an event behind other text is not steady |
| Stamps.LongEventsCanPass | internal/api/forward.go:109-130 | an event over the limit is not steady |
| Fleet.FullIsExact | internal/env/fleet.go:185-225 | after a full announcement a machine's rows are exactly the announced ones, the last entry winning, and no other row changed |
| Fleet.PartialNeverRemoves | internal/env/fleet.go:192-210 | a partial announcement puts the same rows and removes none |
| Fleet.Reapplied | internal/env/fleet.go:185-225 | applying again is as if only applied the second time; at the same time it is idempotent |
| Fleet.ReappliedIff | internal/env/fleet.go:198-201 | reapplied later, it changes nothing if and only if every entry that counts has a time of its own |
| Fleet.Commute | internal/env/fleet.go:185-225 | full announcements of two machines without a shared environment commute |
| Fleet.Hub.PutEntries | internal/env/fleet.go:192-207 | puts the entries up to the first that names no environment or cannot be stored |
| Fleet.Hub.Forget | internal/env/fleet.go:211-224 | forgets exactly the machine's rows that were not announced, up to the first failure, and counts them |
| Fleet.Hub.Apply | internal/env/fleet.go:185-225 | a successful announcement leaves the applied directory; a failed one leaves the unannounced rows of other machines alone |

## Left out

- Texts: details, reasons and error messages of events and steps; a failure is told apart only where the code branches on it.
- `internal/cli`, `internal/bootstrap`, sockets, TLS, HTTP, files, JSON and YAML: input and output.
- Locks and goroutines: each locked method is one step; a watch runs as one sequence of beats; connection cancel functions are a flag.
- `NormalizeHost` and `stamp`: taken as fixed functions.
- Rates are exact reals, not float64.
- Deploys.DeployRun.ReplaceUnexposed: the containers of services not behind the edge are not in the model, because they are replaced in place and have no two sides; only the failure exits are.
- Container names that are empty, and an edge that is not configured, so that rows are not written: not modelled.
- `restorePrevious`, release records, pruning and `cleanStrays`: they touch neither the rows nor the two sides of exposed services. A crash between the other steps of a deploy is not modelled, nor are other deploys of the same environment at the same time.
- The creation of a deploy's own record, and a resumed deploy that never reached the switch.
- The beats of a watch are its input; `Polls.PromotedWithinPolicy` joins the ones that polled the edge to what the edge logged.
- A writer that fails, or none, under `MachineStamp`, and the sink's line format behind `logWriter`.
- The crash-loop warning and the dependencies' checks of the health loop.
- Peer admission, placement and announcing on the member's side.

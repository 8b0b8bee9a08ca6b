# Verification of the monitoring control plane

A Dafny model of xisnove's control-plane protocol and of the agent worker that talks to it, with proofs of what
the two promise. The control plane is one state machine over the stored tables: monitors are created, runs are put
on each monitor's time grid, agents lease runs and upload results, results are folded into location health, rolled
up into monitor health and incidents, and locations that stop reporting are swept. Every transaction is one step,
and the main results hold of every sequence of steps: any interleaving of any number of schedulers, sweeps and
agents, any clock readings, any arguments.

    dafny verify dfyconfig.toml

## How it is organised

| file | what it holds |
|---|---|
| `Health.dfy`, `Incidents.dfy`, `Projection.dfy` | thresholded location health, the rollup, the incident machine, and the rows derived from them, as functions of a journal of health events |
| `Tables.dfy`, `Ordering.dfy` | the tables, each transaction as a function on them, and `ORDER BY ... LIMIT` |
| `Protocol.dfy`, `Safety.dfy`, `Theorems.dfy` | the state machine, its inductive invariant, and the theorems about whole runs |
| `Delivery.dfy`, `Takeover.dfy`, `Staleness.dfy`, `Punctuality.dfy`, `Scheduling.dfy`, `SoleScheduler.dfy`, `Backlog.dfy` | batches and retries, the shortest takeover, the stale sweep, the absence of false staleness, slot accounting for ticks and for whole runs, draining the backlog |
| `ControlPlane.dfy` | the services and repository methods as a class that updates the tables statement by statement, each transaction proved equal to its function and the invariant kept |
| `AgentWorker.dfy`, `EndToEnd.dfy` | the worker's queue, retry and requeue loops; sequences of calls of the worker against the server over a lossy channel |
| `TextTime.dfy` | times stored and compared as text |
| `TcpMatch.dfy`, `AgentBounds.dfy` | the chunked search of the TCP probe; the size limits of what agents report |

The tables are modelled by maps. The rows that one monitor owns in `monitor_locations`, `location_health`,
`monitor_health`, `incidents` and `incident_events` are grouped into one `Board`; an incident is known by its
position in the order of opening. Beside the tables, the state machine carries a `History` that the tables do not
keep: the journal of health events of each monitor in commit order, the claims of each run, the tokens issued, the
token each accepted result carried, the due rows schedulers have read, and the skipped slots reported. Steps
consult it only for which due rows a scheduler can hold and which tokens are new. The class keeps it as a ghost field.

## What is assumed

- Transactions are serialised, and one that fails changes nothing.
- Time is exact and integral, in nanoseconds from Go's zero time. Steps take arbitrary clock readings; nothing
  assumes that clocks agree or advance, except where a lemma says so.
- Lease tokens are issued fresh, and distinct tokens have distinct hashes.
- Where a result is about the only scheduler, run ids are new and monitors are created after Go's zero time.
- A monitor's assignments are fixed when it is created. `CreateMonitor` makes one; the state machine allows any
  number, since the queries and the rollup handle many.
- The lease service and the result service share one lease duration, as `cmd/xisnove-server/serve.go:66-70` sets
  them up.

## What the proofs found

- Draining the backlog holds exactly for positive lease durations (`BacklogDrainsInOrder`,
  `WithoutLeasesNothingDrains`): with a zero or negative one every claim takes the oldest run again. The lease
  service does not check its duration; the server's configuration does (`internal/config/config.go:25-26`).
- A due list that its LIMIT cuts between two locations of one monitor makes the second miss the slot unreported
  (`ACutListMissesASlot`). `TickBalances` has the exact condition under which a location's slots stay accounted for.
  `CreateMonitor` is the only caller of `AssignLocation` (`internal/application/configuration.go:102`) and assigns
  one location, so the program as it stands never produces such a list; its queries and its rollup allow for it.
- The text guard on SQLite schedules decides as time does exactly unless both times lie in one second and one
  written fraction continues the other (`TextOrderIsTimeOrder`). `SubSecondAdvanceRefused` has advances that it
  refuses. Intervals of a second or more are safe (`TextGuardIsTimeGuard`), and the HTTP API asks for at least five.
- The rollup of a list of locations depends on its order exactly if a `degraded` state meets an unknown or pending one
  (`RollupOrder`). No location is ever `degraded`, which is part of the invariant, so the order never matters here.
- `docs/superpowers/specs/2026-07-24-xisnove-v1-design.md:446` says that repeated or late uploads get a duplicate
  acknowledgement. Read of uploads after the first valid result has resolved the run, the code does so
  (`AnsweredExactly`). Read of every late upload, it does not: as long as no result of the run is stored, the upload
  of a superseded lease holder is an error (`SupersededUploadFails`; `FirstHolderIsRefused` has the shortest such
  history). The model follows the code.
- The same document, at line 449, has agents keep results until they are acknowledged. The code loses a drained batch if
  the credential cannot be read before an upload attempt, and may drop a result when its call is cancelled
  (`AResultCanBeLost`). `CallLosesExactly` says what each call loses, and `KeptUntilAcknowledged` when nothing is lost.
  Conservation accounts for both losses by name.

The noise bound is stated for every price that is at most both thresholds, which is the bound for their minimum.

## Model

| member | source | states |
|---|---|---|
| Theorems.DerivedStateAlwaysAgrees | internal/application/projection.go:10-68 | In every reachable state a monitor either has no health event yet and is `pending` without incidents, or its state is the rollup of its required locations; it has an active incident when down or degraded, in that state, none when up, and only an `unknown` one when unknown; what is down is critical, what is degraded or unknown is a warning, in the incident and in every logged event, and recovering keeps the severity; every incident's events form a chain that replays to the incident row; monitor and incident agree on when they went down or degraded |
| Theorems.LocationHealthIsReplay | internal/application/results.go:185-206 | Every location row is the fold of its results and stale claims in commit order; its state and last transition are those of unbounded streak counting; without a deadline it is pending or unknown with nothing counted |
| Theorems.DeadlineOfLatestResult | internal/application/results.go:201-203 | In every reachable state a location whose latest event is a result has as deadline that result's finish time plus 2 × interval + timeout + lease (45 s for a lease that is not positive), and otherwise none |
| Theorems.TimesAreThoseOfEvents | internal/application/projection.go:27-67 | In every reachable state a monitor entered its state at the time of the health event that changed its rollup, and every incident event carries the time of a health event |
| Theorems.NoiseIsBounded | internal/application/projection.go:22-67 | Over every run, each incident event of a monitor beyond its stale claims has cost min(F, R) accepted results |
| Theorems.RecoveredForever | db/generated/postgres/incidents.sql.go:14-21 | Over every continuation of every run an incident's log only grows, and a recovered incident never changes again |
| Theorems.OneResultPerResolvedRun | internal/application/results.go:129-179 | A run is resolved exactly if a stored result names it, and then exactly one does: the final lease holder's, received at `resolved_at`, with its times inside the lease window and its 30 s of grace and its texts inside their limits |
| Theorems.LeasesAreFenced | db/generated/postgres/runs.sql.go:17-41 | Over all interleavings an accepted result carries the token of its run's most recent claim and of no earlier one; attempts count the claims; leases of a run do not overlap; the expiry is at least slot + attempts × lease |
| Theorems.EachRunAppliedAtMostOnce | internal/application/results.go:88-109 | Each run is folded into health at most once, and exactly the stored results are, with their outcome and finish time |
| Theorems.RunsSitOnTheGrid | internal/application/scheduler.go:52-97 | Under any interleaving of schedulers every run and every `next_run_at` is on the grid from the creation time, runs are unique per monitor, location and slot, each is an interval before `next_run_at`, and each executes the monitor's probe within the monitor's timeout |
| Theorems.MonitorsContinue | db/generated/postgres/configuration.sql.go:14-20 | Over every continuation of every run a monitor keeps its parameters and assignments, and `next_run_at` never decreases |
| Theorems.LaterStatesKeepMore | db/generated/postgres/results.sql.go:74-88 | No continuation of a run removes or changes a stored result, a run's slot or a journal entry |
| Safety.Safe | internal/application/results.go:76-210 | The invariant of schedules, leases, results and journals holds of every reachable state |
| Safety.NextKeepsInvariant | internal/application/scheduler.go:52-97 | Every step of the protocol, with any arguments, keeps the invariant |
| Safety.BoardsReplay | internal/application/projection.go:10-68 | In every reachable state all derived rows of a monitor are the replay of its journal |
| Safety.NoErrorsMeaning | internal/application/results.go:212-258 | Validation reports no field and the token matches exactly for a result with a live lease of this agent, times in the window, and fields in bounds |
| Safety.UploadIngests | internal/application/results.go:129-210 | An accepted upload stores one row, resolves its run and replaces one monitor's board; any other upload changes nothing |
| Safety.ClaimTakes | internal/application/leasing.go:104-137 | A claim changes nothing, or gives one due run, that was available or whose lease had ended, to the caller: an unrevoked agent with the capabilities it asks for, and the first run by (scheduled_for, id) of its location and of those capabilities |
| Safety.EnqueueSchedules | internal/application/scheduler.go:74-88 | Inserting and advancing moves schedules only forward and adds at most one unclaimed run |
| Safety.AdvanceOnGrid | internal/application/scheduler.go:100-116 | The bounded schedule picks the latest slot not after now, stays on the grid, and the next run is one interval later and after now |
| Safety.ScheduleMeaning | internal/application/scheduler.go:100-116 | A zero time or an interval that is not positive is invalid, a future slot stays, and otherwise the slot is the latest not after now, with the number of slots skipped |
| Safety.CreatedRows | internal/domain/monitor.go:241-265 | A new monitor is enabled and due at once, with pending health everywhere, no deadlines and no incidents |
| Health.CountersAreStreaks | internal/domain/health.go:42-67 | The wrapping uint16 counters are the lengths of the current streaks modulo 65536 |
| Health.CountersDecideLikeStreaks | internal/domain/health.go:42-67 | For every history and every threshold from 1 to 65535, wrapping counters give the state and transition time that unbounded counting gives |
| Health.LocationInvariantHolds | db/generated/postgres/health.sql.go:13-24 | A location is never degraded, and without a deadline it is pending or unknown with zero counters |
| Health.TimesOfLatest | internal/domain/health.go:62-65 | For every history a location was last observed when its latest result finished, and has a deadline exactly if a result is its latest event, the policy's slack after it |
| Health.TransitionSpendsCredit | internal/domain/health.go:48-60 | One result earns at most one unit of credit towards a transition, and a transition spends its whole threshold |
| Health.TransitionsArePaidFor | internal/domain/health.go:42-67 | Per location, F × changes to down + R × changes to up, plus what is counted towards the next, is at most the results observed |
| Health.RollupRequired | internal/domain/health.go:69-98 | The loop computes the rollup function |
| Health.RollupMeaning | internal/domain/health.go:69-98 | Without degraded inputs: unknown exactly if there is none or one is unknown or pending, up or down exactly if all are, degraded exactly if both occur and nothing else does |
| Health.FirstUnsettledDecides | internal/domain/health.go:76-89 | The first location that is neither up nor down decides: degraded if it is, unknown otherwise |
| Health.RollupIgnoresOrder | internal/domain/health.go:69-98 | Two orders of the same locations roll up alike unless a degraded one meets an unknown or pending one |
| Health.RollupOrder | internal/domain/health.go:76-89 | A list rolls up alike in every order exactly if it does not hold a degraded state and also an unknown or pending one |
| Incidents.OpenStartsChain | internal/domain/incident.go:56-70 | Opening starts an event chain that replays to the incident |
| Incidents.DecisionExtendsChain | internal/domain/incident.go:73-95 | A decision about an active incident extends its chain into the new state, does nothing exactly if the state is unchanged or pending, and closes it exactly for `up` |
| Incidents.ChainFits | internal/domain/incident.go:98-107 | Along every chain down is critical, degraded and unknown are warnings, and an `up` event keeps the severity before it |
| Projection.ProjectAgrees | internal/application/projection.go:18-67 | From any board with sound logs, projecting makes monitor state, incident and log match the rollup; with openUnknown an unknown monitor gets an active incident |
| Projection.DerivedStateAgrees | internal/application/projection.go:18-67 | For every history of health events the derived rows agree |
| Projection.TransitionTimesAgree | internal/application/projection.go:27-61 | For every history an active incident about a monitor that is down or degraded has the monitor's transition time |
| Projection.HealthSince | internal/application/projection.go:27-33 | For every history a monitor's transition time is that of the event that changed its rollup |
| Projection.EventsAreTimed | internal/application/projection.go:62-67 | For every history every incident event carries the time of a result or of a stale claim |
| Projection.LocationsAreReplays | internal/application/results.go:185-206 | For every history a location's row depends only on that location's part of it, as its fold |
| Projection.RecoveredIncidentsAreFinal | internal/adapters/postgres/store.go:545-574 | Incidents are never removed, logs only grow, recovered incidents are final |
| Projection.UnchangedLocationIsQuiet | internal/application/projection.go:22-51 | A result that leaves its location's state as it was appends no incident event |
| Projection.EventHasCause | internal/application/projection.go:52-67 | One health event adds at most one incident event, and none if it is a result that changed no state |
| Projection.NoiseBound | internal/application/projection.go:22-67 | The noise bound for every history of one monitor |
| Delivery.AnsweredExactly | internal/application/results.go:90-100 | An upload is a duplicate exactly if its id or run has a result, accepted exactly if not and it carries the live lease and passes every check, and an error otherwise |
| Delivery.StoredAsSent | internal/application/results.go:148-200 | An accepted upload stores one row that says what the command said, resolves its run, and adds one observation of that outcome and finish time |
| Delivery.FieldsMeanWhatTheySay | internal/application/results.go:212-258 | What each field of a validation error means, in figures |
| Delivery.RejectedExactly | internal/application/results.go:135-146 | Which error an upload gets: the run is unknown, else some field is wrong, else the token |
| Delivery.SupersededUploadFails | internal/application/results.go:143-146 | An upload with a superseded lease's token succeeds exactly if a result is already stored for its id or run |
| Takeover.FirstHolderIsRefused | internal/application/results.go:143-146 | A history of six steps with two claims and no result, after which every upload with the first token is an error |
| Delivery.BatchIsSafe | internal/application/results.go:76-109 | A batch keeps the invariant and loses nothing; a success acknowledges the commands in order, each delivered |
| Delivery.BatchSizeExactly | internal/application/results.go:81-85 | A batch is refused for its size exactly if it is empty or has more than 100 results, and then nothing changes |
| Delivery.StatusesAreTrue | internal/application/results.go:89-106 | A command is called a duplicate exactly if it was delivered before its turn |
| Delivery.DeliveredAgain | internal/application/results.go:111-127 | Uploading delivered commands again changes nothing and acknowledges each as a duplicate |
| Delivery.RedeliveryIsHarmless | internal/application/results.go:88-109 | After a batch succeeded, uploading it again at any later time, by anyone, leaves the state as it is with every status duplicate |
| Delivery.FailureKeepsPrefix | internal/application/results.go:88-103 | A batch that fails leaves exactly what uploading the commands before the failing one leaves |
| Staleness.StaleAlarms | internal/application/staleness.go:48-56 | Marking a location whose monitor requires an unknown location leaves the monitor unknown with an active unknown incident |
| Staleness.SweepIsExact | internal/application/staleness.go:35-69 | Sweeping due rows marks each once, resets exactly the rows named, and alarms each monitor that requires one |
| Staleness.MarkDueIsExact | internal/application/staleness.go:19-70 | In every reachable state an uninterrupted sweep with an untruncated list marks exactly the rows past their deadline and leaves the others, and monitors without one, untouched |
| Staleness.SilentLocationIsMarked | internal/application/staleness.go:26-69 | In every reachable state an untruncated sweep resets a location whose latest event is a result exactly from 2 × interval + timeout + lease after that result finished |
| Staleness.StaleListIsMostOverdue | db/generated/postgres/health.sql.go:210-217 | The listed rows are past their deadlines and ascend by deadline, monitor and location; a row is left out only by a full list of rows before it |
| Staleness.ListsUpToTheLimit | internal/application/staleness.go:20-30 | A sweep lists all rows past their deadline up to its limit, 100 by default and 1000 at most |
| Punctuality.NextSlotIsNotLate | internal/application/results.go:171-179 | When results are committed in slot order, the slot after the latest reported one is not resolved, so its promise leaves it within its interval or within a live lease taken in it |
| Punctuality.NeverFalselyStale | internal/application/staleness.go:35-56 | If the slot after each reported one has a run that is leased, by any of its claims, within an interval of the slot and committed before that lease ends, and results finish after their slots and are committed in slot order, the location is never marked, for any interval, timeout and lease |
| Scheduling.DueListIsSnapshots | db/generated/postgres/configuration.sql.go:169-191 | The due list holds snapshots of due monitors, no location twice, at most the limit |
| Scheduling.DueListIsOrdered | db/generated/postgres/configuration.sql.go:187-190 | The due list ascends strictly by next_run_at, monitor and location |
| Scheduling.LimitKeepsMostOverdue | db/generated/postgres/configuration.sql.go:187-190 | A due location is left out only by a full list, whose rows all come before it |
| Scheduling.ListsUpToTheLimit | internal/application/scheduler.go:36-46 | A tick lists all due rows up to its limit, 100 by default and 1000 at most |
| Scheduling.MovesAreDated | db/generated/postgres/configuration.sql.go:14-20 | A row's transaction changes only its own monitor, and dates the change with the tick's clock reading |
| Scheduling.UntruncatedListIsComplete | db/generated/postgres/configuration.sql.go:169-191 | A list within the limit names every assigned location of every due monitor |
| Scheduling.TickBalances | internal/application/scheduler.go:61-97 | After a tick without error a location's slots are accounted for exactly if the list named it whenever it named its monitor; it gains at most one run |
| Scheduling.CompleteTickConserves | internal/application/scheduler.go:61-97 | With an untruncated list every slot passed is one run or one reported skip, with at most one run however long the outage |
| Scheduling.StatisticsAreTrue | internal/application/scheduler.go:61-96 | The statistics of a tick without error are the number of runs added, the skips reported for the listed locations, and the greatest lag among the listed rows |
| Scheduling.ACutListMissesASlot | db/generated/postgres/configuration.sql.go:187-190 | A tick with limit 1 over a new monitor with two locations: the second misses its slot, and no error or skip is reported |
| SoleScheduler.SlotsAreConserved | internal/application/scheduler.go:61-116 | Over whole runs with one scheduler, at any tick times and with any steps of others before, between and after its rows, whenever no tick is under way: slots from creation to `next_run_at` = runs + reported skips, at every assigned location |
| SoleScheduler.RowsNeverFail | internal/application/scheduler.go:74-91 | With new run ids and monitors created after zero time no row of the scheduler fails |
| SoleScheduler.TickIsItsRows | internal/application/scheduler.go:52-97 | A tick that nobody interrupts is its rows one after the other |
| SoleScheduler.WholeTickConserves | internal/application/scheduler.go:32-98 | A whole tick with new run ids and a list that is not cut reports no error and leaves every location balanced |
| Backlog.ClaimTakesOldest | db/generated/postgres/runs.sql.go:17-41 | A claim takes the least waiting run by (scheduled_for, id), and takes it off the backlog exactly if leases last |
| Backlog.RefusedExactly | internal/application/leasing.go:56-67 | Invalid credentials exactly for an agent that is unknown or revoked, asks for nothing, or asks for a capability it does not advertise |
| Backlog.NoWorkExactly | internal/application/leasing.go:117-129 | No work exactly if the agent is not refused and no run of its location and of a kind it asks for is due and available or past its lease |
| Backlog.HandedOutIsAdvertised | internal/application/leasing.go:140-157 | Whenever a claim changes anything, every capability asked for and the kind of the run are advertised by the agent, and the run is of its location and due |
| Backlog.BacklogDrainsInOrder | internal/application/leasing.go:104-137 | At one clock reading repeated claims return exactly the waiting runs, each once, in (scheduled_for, id) order, then report no work |
| Backlog.WithoutLeasesNothingDrains | internal/application/leasing.go:118-124 | With a lease duration that is not positive every claim takes the oldest run again |
| Ordering.SortedIsTheOrderedList | db/generated/postgres/health.sql.go:210-217 | The ordered list holds every row once, strictly ordered by its key |
| Tables.Oldest | db/generated/postgres/runs.sql.go:18-31 | The candidate is the eligible run that comes first by (scheduled_for, id), and there is none exactly if no run is eligible |
| ControlPlane.Store.Rollback | internal/adapters/postgres/store.go:31-54 | A failed transaction's tables are those it began with |
| ControlPlane.Store.OpenIncident | internal/adapters/postgres/store.go:530-543 | An incident is opened exactly if none is active |
| ControlPlane.Store.UpdateIncident | internal/adapters/postgres/store.go:545-574 | An incident is changed exactly if it is unrecovered, and nothing else is |
| ControlPlane.Store.ProjectAggregateAndIncident | internal/application/projection.go:10-68 | The statements leave exactly the projected board, others untouched, and no conflict is possible |
| ControlPlane.Store.InsertResult | db/generated/postgres/results.sql.go:74-88 | A result is inserted exactly if neither its id nor its run has one |
| ControlPlane.Store.ResolveRun | db/generated/postgres/runs.sql.go:153-161 | A run is resolved exactly if it is leased by this agent under this token |
| ControlPlane.Store.ValidateResult | internal/application/results.go:212-258 | The error map names exactly the fields that are wrong |
| ControlPlane.Store.IngestTx | internal/application/results.go:129-210 | The statements leave what the upload transaction is specified to leave, and insert and resolve always succeed in it |
| ControlPlane.Store.UploadOne | internal/application/results.go:88-103 | One command is one step of the protocol; an error leaves everything as it was |
| ControlPlane.Store.UploadBatch | internal/application/results.go:76-109 | The loop is the specified batch, and keeps the invariant |
| ControlPlane.Store.CreateMonitor | internal/application/configuration.go:77-131 | Unknown location, invalid fields and a taken id each have their error and change nothing; otherwise exactly the initial rows appear |
| ControlPlane.Store.InsertRun | db/generated/postgres/runs.sql.go:116-125 | A run is inserted unless its slot is taken; a taken id is an error |
| ControlPlane.Store.AdvanceNextRun | db/generated/postgres/configuration.sql.go:14-20 | The schedule moves exactly if that is forward |
| ControlPlane.Store.EnqueueItem | internal/application/scheduler.go:74-91 | The transaction is one step of the protocol, and an error rolls it back |
| ControlPlane.Store.EnqueueDueWithStats | internal/application/scheduler.go:32-98 | The loop is the specified tick, with its statistics and its error, and keeps the invariant |
| ControlPlane.Store.IsCapabilitiesSubset | internal/application/leasing.go:140-157 | The nested search decides whether every requested capability is advertised |
| ControlPlane.Store.ClaimProbe | db/generated/postgres/runs.sql.go:17-41 | Exactly the oldest eligible run, if any, goes to the agent with its attempt counted |
| ControlPlane.Store.LeaseProbe | internal/application/leasing.go:50-137 | The attempt is one step of the protocol, answers with the claimed run's work or the error, and keeps the invariant |
| ControlPlane.Store.ClaimStaleRow | db/generated/postgres/health.sql.go:13-24 | The row is reset exactly if it still has this deadline and it has passed |
| ControlPlane.Store.MarkDue | internal/application/staleness.go:19-70 | The loop is the specified sweep, counts what it marked, and keeps the invariant |
| AgentWorker.NothingVanishes | agent/worker/worker.go:32-106 | Over any sequence of calls, executed results = acknowledged ⊎ queued ⊎ being retried ⊎ the two named losses; the queue never exceeds 100 and keeps execution order; every batch sent has 1 to 100 results in execution order; the n-th wait is min(100 ms · 2ⁿ, 5 s) |
| AgentWorker.HeldInFigures | agent/worker/worker.go:32-158 | The same in figures: 100 results held at most, 1 to 100 in a batch, waits of 100 ms doubled up to 5 s |
| AgentWorker.ResultsAreIdentified | agent/worker/worker.go:86-91 | Whatever the executor reports, every result the worker holds or sends has an id |
| AgentWorker.ResultsComeFromWork | agent/worker/worker.go:86-91 | Every executed result carries the run and token of work that one of the calls leased, the id reported or a fresh one, and times, outcome and measurement as reported |
| AgentWorker.LeasingEnds | agent/worker/worker.go:61-97 | Leasing ends at a queue of 100 or with the first turn that queues nothing, which alone decides the error |
| AgentWorker.FirstAnswerDecides | agent/worker/worker.go:108-158 | An upload is its first attempt that does not go unanswered: it alone decides the error, the queue and the accounts, and each attempt before it sends the batch and waits once |
| AgentWorker.UploadLosesExactly | agent/worker/worker.go:108-117 | A drained batch is lost, as a whole, exactly if an attempt begins without a credential |
| AgentWorker.CallLosesExactly | agent/worker/worker.go:61-105 | What one call loses, from the length of its queue and what it meets: the result of the first work it reaches if that is dropped, and its whole queue if it drains it and the upload is cut short |
| AgentWorker.KeptUntilAcknowledged | agent/worker/worker.go:32-106 | Over any sequence of calls nothing is lost exactly if no call drops work that it reaches or has an upload cut short; then every executed result is acknowledged, queued or being retried |
| AgentWorker.AResultCanBeLost | agent/worker/worker.go:101-117 | A call in which the only executed result is lost without acknowledgement |
| AgentWorker.AcknowledgementsSplit | agent/worker/worker.go:160-178 | Splitting a batch by its acknowledgements loses nothing |
| AgentWorker.UnacknowledgedMeaning | agent/worker/worker.go:160-178 | Exactly the results without an acknowledgement stay pending |
| AgentWorker.PendingExactly | agent/worker/worker.go:164-177 | Exactly the results stay pending whose id no acknowledgement calls accepted or duplicate |
| AgentWorker.UnacknowledgedKeepsOrder | agent/worker/worker.go:171-177 | What stays pending stays in order |
| AgentWorker.BackoffDoubles | agent/worker/worker.go:156 | Doubling up to five seconds is the closed form of the n-th wait |
| AgentWorker.SuccessAcknowledgesAll | agent/worker/worker.go:125-132 | The answer of a successful upload leaves the worker nothing to upload again |
| AgentWorker.Worker.RunOnce | agent/worker/worker.go:32-106 | The loops are the specified call on queue and account, and keep the account sound |
| AgentWorker.Worker.UploadUntilAcknowledged | agent/worker/worker.go:108-158 | The retry loop is the specified upload |
| AgentWorker.Worker.UnacknowledgedResults | agent/worker/worker.go:160-178 | The two loops compute the unacknowledged results |
| AgentWorker.Worker.Requeue | agent/worker/worker.go:180-184 | Results are put back at the end in order, every send finding room |
| EndToEnd.LossyUploadDelivers | agent/worker/worker.go:108-158 | Whatever requests and answers are lost, refused, cancelled or without credential and whatever others do meanwhile, the server stays sound and loses nothing; the upload ends without error exactly with the whole batch delivered and acknowledged, and otherwise acknowledges nothing |
| EndToEnd.AcknowledgedIsDelivered | agent/worker/worker.go:32-106 | Over any sequence of calls of a worker against the server, every result counted as acknowledged is delivered, and the account of all the others is sound |
| EndToEnd.LeasedWorkIsAccepted | internal/application/results.go:129-210 | There and back: what the worker makes of a claimed run and of a report in bounds is accepted exactly if it began at most 30 s before the slot, given that it ended and is received at most 30 s after the lease |
| EndToEnd.LostAnswersCostNothing | internal/application/results.go:88-109 | Once a batch is delivered, retries after lost answers change nothing |
| EndToEnd.AnswerSettles | agent/worker/worker.go:125-141 | An attempt ends the loop without error exactly if it arrived, was answered and the server took the whole batch; all of it is then delivered and acknowledged |
| TextTime.TextOrderIsTimeOrder | internal/adapters/sqlitecompat/store.go:1233-1235 | For formatted UTC times with four-digit years, text order is time order exactly unless both lie in one second and one written fraction continues the other |
| TextTime.SecondsApart | internal/adapters/sqlitecompat/store.go:1233-1235 | Times a second or more apart compare as text as they do as times |
| TextTime.TextGuardIsTimeGuard | db/generated/sqlite/configuration.sql.go:12-18 | For two slots of a monitor with an interval of at least a second the text guard is the time guard |
| TextTime.SubSecondAdvanceRefused | db/generated/sqlite/configuration.sql.go:12-18 | From every whole second the text guard refuses to advance by half a second |
| TextTime.SecondsOrder | internal/adapters/sqlitecompat/store.go:1233-1235 | Calendar fields order whole seconds as their count does, through months and leap years |
| TextTime.DaysClosedForm | internal/adapters/sqlitecompat/store.go:1233-1235 | The calendar counted month by month is the Gregorian one |
| TextTime.SpelledOut | internal/adapters/sqlitecompat/store.go:1233-1235 | The text of a time: zero-padded fields with their separators, and a fraction only if there is one |
| TextTime.FormatThenParse | internal/adapters/sqlitecompat/store.go:1237-1243 | What formatTime writes, parseTime reads back |
| TcpMatch.ReadUntilExpected | agent/probe/tcp.go:204-221 | However the stream is split, what is returned is a prefix of at most 4096 bytes that contains the expected bytes exactly if the first min(length, 4096) bytes of the stream do |
| TcpMatch.CheckExpectation | agent/probe/tcp.go:147-159 | The expectation passes exactly if nothing is expected or the expected bytes occur in the first 4096 bytes, whatever the splits and the ending |
| TcpMatch.ContainsMeaning | agent/probe/tcp.go:153-158 | Containing some bytes is being made of something, them, and something |
| AgentBounds.BoundDnsValues | agent/probe/dns.go:250-262 | The longest prefix within 20 values and 4096 bytes |
| AgentBounds.TotalBytesMeaning | internal/application/results.go:238-241 | The bytes counted are those of all the values together |
| AgentBounds.Diagnostic | agent/probe/http.go:333-348 | The encoding of the longest prefix of the sanitised characters within 512 bytes, without control characters |
| AgentBounds.ScalarsAreKept | agent/probe/http.go:334 | Text without bad bytes is kept as it is |
| AgentBounds.RunBecomesOne | agent/probe/http.go:334 | A run of bad bytes becomes one replacement character, and what is around it is not touched |
| AgentBounds.SanitizedMeaning | agent/probe/http.go:337-340 | Exactly the control characters become spaces |
| AgentBounds.EncodedRune | agent/probe/http.go:345 | A character is written as UTF-8 by section 3 of RFC 3629: the first byte tells the length, the code point can be read back |
| AgentBounds.Report | internal/application/results.go:235-244 | The values and the sample that are sent are the longest that fit of what was observed and said, and the server never rejects them for their size |

## Left out

- Names and their uniqueness, id formats and event ids: a taken monitor or run id is an error, other ids are assumed new.
- Zero times stored as NULL: clock readings and finish times are assumed later than Go's zero time, except in the schedule check.
- Saturation of Go durations beyond 292 years, milliseconds for stored intervals and timeouts, and the 32-bit attempt and lag counters.
- Error texts: a validation error is the set of fields it names.
- ControlPlane.Store.LeaseProbe: models one attempt of the polling loop, with the agent's standing read in the same step as the claim; waiting and cancellation are left out, and so is a change of capabilities between the two.
- ControlPlane.Store.CreateMonitor: does not model names, their uniqueness and the validation of probe variants; the probe definition is carried as its kind only.
- Row locks: `SKIP LOCKED` claims are serialised, so a claim always sees every eligible run.
- SoleScheduler.SlotsAreConserved: a scheduler that stops within a tick is left out, since a monitor of two locations could then miss a slot at the second.
- AgentWorker.Worker.RunOnce: the network and the executor are scripts of what each request meets, and a call that outlives its script counts as still waiting; liveness of delivery is left out, since one permanently rejected result keeps its batch queued.
- TextTime.FormatThenParse: parsing is modelled for UTC texts with at most nine digits of fraction, which are the ones formatting writes.
- AgentBounds.Diagnostic: takes the string as decoded, into code points and bytes that belong to none; decoding UTF-8 itself is left out.
- SQLite's floating-point `julianday` comparisons and Postgres' microsecond rounding: the protocol compares exact times.
- Probing itself, the HTTP API and its clients, the user interface, sessions, enrolment, cryptography, migrations, backups and configuration parsing.

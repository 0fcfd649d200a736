# Roster, verified

Roster runs workflows of jobs on GPU machines: a controller places jobs on nodes, starts them there, polls them, and keeps
what it needs in a database so that it can go on after a crash. This project models its hard parts in Dafny and proves
what they promise. Paths below are relative to the repository.

- **The broadcast ring** (`Memory`, `Ring`, `RingSafety`, `RingOrderings`, `RingProgress`, `Channel`). One sender, any number of receivers,
  one atomic access per step. Each location keeps the history of its values and each thread a view of how far it has seen
  (the release, acquire and fence rules of ISO C++20, sections 6.9.2 and 31.11), so a relaxed load may return an old value
  unless the code's orderings forbid it. Whatever a receiver delivers at a position is what was sent there, for any
  capacity, word count, number of receivers and interleaving. All four orderings are needed: the property holds if and
  only if both fences, the release store and the acquire load are there; and while the sender rests, a receiver gets exactly
  what the sequential ring gives. `Channel` is the code as it runs alone: masks,
  strides, loops over the arrays, and what draining gives while the sender rests.
- **The controller** (`Controller`, `Decisions`, `Ledger`, `Dependencies`, `Stored`, `Recovery`, `Progress`, `Cancels`,
  `StoredRuns`, `TwoJobs`). A state machine whose steps are the sections under the locks; submits, cancels, database writes
  and crashes may come between any two. `Decisions` says of jobs, pools and rows exactly whom each section changes and how.
  In every reachable state free and held resources add up, no card is held twice, jobs run in dependency order and the stored
  rows can be recovered from exactly; runs cannot get stuck, each makes a bounded number of transitions, and only a cancel of
  its own run cancels a job. What a run counts as by its rows is characterised exactly.
- **The controller's code** (`Dag`, `Pool`, `Placement`, `Sections`, `Daemon`) as methods that update their fields in place,
  each proved to do what the state machine's steps say, up to a whole tick.
- **Launching over a network that loses replies** (`Executor`, `Remote`, `Worker`, `Protocol`, `Replies`, `OneJob`), in runs with any
  number of crashes. The requests made between two starts of the controller start each job at most once over all nodes, and
  a living process is booked at its node, but for the exceptions named below, which are characterised exactly. `Replies` goes
  from what is on a node, and what it answers, to what becomes of the job.
- **Two codecs and a small machine** (`UnitName`, `Vram`, `Quarantine`).

`Spec`, `Model`, `Wrappers`, `Sums` and `Remainders` are what these share.

## What the code relies on

- A card's index is its place in the inventory (`gpus[i].index == i`): the pool indexes its vectors by `gpu.index`
  (src/resource/pool.rs:135), though discovery can skip a card (src/resource/discovery.rs:57-58). `Pool.WellIndexed` says so.
- The nodes and their inventories are the same after a restart.
- Database writes succeed and keep their order; the code ignores their errors (src/scheduler/mod.rs:261).
- A launch request arrives before any later request about the same job or never. One that is under way when the controller
  crashes may arrive at any time afterwards.
- In `Protocol` the daemon of a node does not start again while a living process is not yet in its systemd scope, or without
  scopes; `Worker` and `Executor.RestartForgets` have it start again at any time.
- A node can read the exit files that are there, and a Launch sees the scope of a living process. A poll may see nothing of
  it: that is modelled.
- Without scopes a job is its shell alone, as it is for the code; with them, what is left in a scope once the exit code is
  written counts as stopped (src/executor/shell.rs:183-184). What a shell left behind otherwise is not modelled.
- Positions stay below 2^63, as src/broadcast.rs:24-26 argues.

## Where the code falls short of a promise

- A node can misjudge a living process, and the controller then ends its job and frees what it holds
  (src/scheduler/mod.rs:563-606). There are two ways:
  - With scopes a poll never fails: if the process is no longer the daemon's own child, because the daemon restarted or the
    wrapper was killed, and neither the process's cgroup nor systemd says anything (src/executor/shell.rs:187-190, 206-221),
    the answer is an exit with -1. The job ends as Failed, or as Cancelled if it was being cancelled; the node sticks to its
    answer and will not kill the process any more (`Worker.UnseenThenKilled`). `OneJob.UnseenProcessGetsReleased` is a run.
  - The poll fails: without scopes because `waitpid` does (src/executor/shell.rs:231), or because a node whose daemon
    restarted does not find the job (src/worker.rs:61-62). The job ends as Failed. `OneJob.UncheckedProcessGetsReleased` is a
    run.

  For the processes of jobs that the controller's own requests started, or that it took back, since it last started, nothing
  else does this: `Protocol.AliveIsBooked` proves that what is alive is booked if and only if its job did not end on such an
  answer, and `Protocol.OnlyMisjudgedIsReleased` that of all answers exactly those of `Executor.Misjudges` do it.
- A crash after a launch (src/scheduler/mod.rs:384-411) and before the write of its section (line 481) leaves a living
  process whose row still says Queued, and nothing is booked for it afterwards: `OneJob.UnwrittenLaunchIsLost`. A request
  still under way at the crash can start one later: `OneJob.LateRequestStartsUnbooked`. Exactly this happens:
  `Protocol.CrashBooksFound` proves that after a restart a process is booked at its node if and only if its row said Running
  there and it was found again, `Protocol.RowTellsWhatIsBooked` that the row says so exactly from the write on, and
  `Protocol.AliveIsAlwaysBooked` that only these and the misjudged are ever unbooked.
- A node's daemon that starts again finds a process by its scope or its exit file (src/executor/shell.rs:136-148). After a
  cancel, a kill of the wrapper or a reboot there is neither (lines 174-178), although src/worker.rs:40-43 promises that a
  repeated Launch starts nothing: a poll is then answered with an error, which ends the job as Failed, and a repeated Launch
  starts the job a second time. `Worker.KilledThenLaunchedAgain` is such a sequence; `Executor.RestartForgets` and
  `Worker.Worker.Launch` say exactly when it happens.
- A qualification past its timeout is stopped without looking at what came of it, and its card is freed
  (src/scheduler/mod.rs:222-229, 236-241). `Executor.LivingQualificationIsOver`: one that lives on loses its card if and only
  if its node misjudges it, or it is past its timeout and stopping it had no effect.
- A run's state is derived from its rows (src/store/mod.rs:339), and a submit that a crash cuts short (src/ipc/server.rs:96-98)
  leaves jobs without rows. Once every stored job succeeded, such a run counts as Succeeded although the others never ran.
  `StoredRuns.StoredSucceededMeansAll`: every job succeeded if and only if every job has a row.
  - If the controller goes on, the run opens again when such a job is first written: `TwoJobs.SucceededRunReopens` is a run of
    two jobs from an empty controller, and by `StoredRuns.SucceededStaysIff` nothing else opens it.
  - If the controller crashes again first, src/store/mod.rs:158-163 does not load the run any more: its other jobs never run
    and it reads Succeeded for ever. `TwoJobs.SecondJobIsLost` is such a run; `StoredRuns.RestartDropsIff` says exactly when
    a restart does that, and `StoredRuns.LostForGood` that nothing brings the jobs back.
- Unit names are injective for the run ids the code makes, not for all: `UnitName.UnitNamesCanCollide`.
- The comment at src/workflow/dag.rs:29 says that `validate` returns the order; it returns nothing, and the model follows it.
- src/workflow/model.rs:14 says that a Pending run has started no job; by lines 179-188 a run with some jobs Succeeded and the
  others Pending is Pending too, and one with a Queued job is Running. The model follows the code.

## Model

| member | source | states |
|---|---|---|
| `Memory.NewestIsLoadable` | src/broadcast.rs:150-165 | the newest value of a location is among those a thread may load |
| `Memory.AcquireLearns` | src/broadcast.rs:150 | an acquire load takes over all that was published with the value |
| `RingSafety.SendKeeps` | src/broadcast.rs:85-108 | every step of a send keeps each location's history and what its messages carry |
| `RingSafety.MarkHolds` | src/broadcast.rs:87-91 | the odd store puts exactly the next lap's version on the slot |
| `RingSafety.PublishCarries` | src/broadcast.rs:107 | the even version carries all words of its position and the cursor past it |
| `RingSafety.StoreWordCarries` | src/broadcast.rs:92-106 | a word carries the odd version of its position, thanks to the release fence |
| `RingSafety.WantedSeen` | src/broadcast.rs:148-159 | the first load seeing the wanted version means no older word can be loaded |
| `RingSafety.UntornWord` | src/broadcast.rs:160-168 | after the acquire fence, an unchanged version means each loaded word is of that position |
| `RingSafety.LappedSeen` | src/broadcast.rs:154-157 | a newer version means the wanted event was overwritten or is being, and the cursor found is at least a capacity ahead |
| `RingSafety.CaughtUpAhead` | src/broadcast.rs:176-182 | a jump goes forward, to at most half a capacity behind a cursor that is not beyond the sender's |
| `RingSafety.RingStepKeeps` | src/broadcast.rs:85-182 | any step of the sender or a receiver, whatever its loads return, keeps the ring's invariant |
| `RingSafety.DeliveredIsSent` | src/broadcast.rs:85-182 | in every run, each value delivered at a position is word for word what was sent there, and each jump is forward, forced and not beyond the sender |
| `RingSafety.PositionsRise` | src/broadcast.rs:142-182 | in every run, the positions a receiver delivers strictly increase, without a gap between two deliveries in a row |
| `RingProgress.UndisturbedReceive` | src/broadcast.rs:142-182 | in every reachable state with no send under way, a receive that loads newest values gives the next event if it is held, nothing if there is none, and if it was overwritten nothing and a jump to half a capacity behind the cursor |
| `RingOrderings.NewestAlwaysLoadable` | src/broadcast.rs:142-182 | in every reachable state a receiver can load the newest values, so sequentially consistent runs are covered |
| `RingOrderings.StaleRead` | src/broadcast.rs:107-150 | without the release store or the acquire load a run delivers words that were never sent |
| `RingOrderings.TornRead` | src/broadcast.rs:92-164 | without either fence a run delivers a later event's words at an earlier position |
| `RingOrderings.OrderingsAreNeeded` | src/broadcast.rs:85-174 | receivers deliver only what was sent if and only if all four orderings are there |
| `Channel.CapacityMeets` | src/broadcast.rs:189-193 | the capacity is a power of two, at least 2 and at least, but less than twice, what was asked for |
| `Channel.MaskedSlot` | src/broadcast.rs:88 | masking a position gives its slot |
| `Channel.SlotsDiffer` | src/broadcast.rs:85-108 | positions less than a capacity apart never share a slot |
| `Channel.RingBuffer.constructor` | src/broadcast.rs:189-224 | a fresh ring is empty, with slot i at version 2i |
| `Channel.RingBuffer.Send` | src/broadcast.rs:85-108 | a send appends one event and the last capacity's worth stay readable, word for word |
| `Channel.RingBuffer.NewestInSlot` | src/broadcast.rs:10-13 | a slot's version is below, at or above the wanted one exactly when the position is unsent, held or lapped |
| `Channel.Receiver.TryRecv` | src/broadcast.rs:144-174 | a receive gives the next event if it is held, and otherwise nothing, with a jump exactly when lapped |
| `Channel.Receiver.CatchUp` | src/broadcast.rs:177-182 | a jump goes half a capacity behind the cursor and counts a lap |
| `Channel.DrainsTheRest` | src/broadcast.rs:144-182 | at most one capacity behind, draining gives exactly the missed events in order and then nothing |
| `Channel.DrainsTheLastHalf` | src/broadcast.rs:144-182 | further behind, it gives nothing once and then exactly the last half capacity of events |
| `Dag.CheckDuplicateIds` | src/workflow/dag.rs:41-53 | succeeds exactly when all ids differ; an error names an id that occurs twice |
| `Dag.CheckUnknownDeps` | src/workflow/dag.rs:56-71 | succeeds exactly when every dependency is a job; an error names a job and what it wants |
| `Dag.CollectDependents` | src/workflow/dag.rs:80-89 | collects each job's dependents with their multiplicity |
| `Dag.Settle` | src/workflow/dag.rs:99-109 | one turn of the loop keeps every degree equal to the dependencies not yet ordered, never below zero |
| `Dag.TopoSort` | src/workflow/dag.rs:74-122 | succeeds if and only if there is no cycle; the result has every job once and after its dependencies; a failure means that there really is a cycle, whatever the queue's order |
| `Dag.StuckMeansCycle` | src/workflow/dag.rs:111-118 | jobs that all wait for one another contain a cycle |
| `Dag.OrderMeansAcyclic` | src/workflow/dag.rs:73-74 | an order with dependencies first rules out cycles |
| `Dag.Validate` | src/workflow/dag.rs:30-38 | succeeds exactly for non-empty workflows with unique ids, known dependencies and no cycle, and reports the first check that fails |
| `Dag.ValidHasOrder` | src/workflow/dag.rs:29-38 | every valid workflow has an order with dependencies first |
| `Dag.ValidMeans` | src/workflow/dag.rs:30-122 | a workflow is valid exactly if it has a job, no two have one id, each dependency is the id of one, and none depends on itself, directly or through others |
| `Spec.OptionsTrade` | src/workflow/spec.rs:50-67 | every option tried holds all the VRAM asked for; each asks for more cards than the one before and no more of each, and keeps CPU, memory and a card count that was given |
| `Spec.OptionsAre` | src/workflow/spec.rs:50-62 | a job that gives only VRAM is tried on 1, 2, 4 and 8 cards in this order, any other as it is |
| `Spec.SharesCover` | src/workflow/spec.rs:64-67 | the share per card is the smallest whose sum covers the request |
| `Pool.ReserveIffFree` | src/resource/pool.rs:64-113 | a reservation succeeds exactly when the CPU and the memory are free and as many cards as asked for that report VRAM, are whole, are not blocked themselves and hold their part; which other cards are blocked makes no difference |
| `Pool.FittingCardsAre` | src/resource/pool.rs:131-138 | the cards chosen from are exactly those |
| `Pool.ReservationMeets` | src/resource/pool.rs:86-147 | it gives the CPU and memory asked for and the lowest whole, free, unblocked cards, whose VRAM covers the request |
| `Pool.ReservationIsLowest` | src/resource/pool.rs:125-147 | the cards handed out are the lowest of those |
| `Pool.IdleFitsWhatCouldFit` | src/resource/pool.rs:72-82 | an idle unblocked pool can reserve exactly what `could_fit` says |
| `Pool.ReserveImpliesCouldFit` | src/resource/pool.rs:72-113 | what can be reserved could fit |
| `Pool.ReleaseUndoesBook` | src/resource/pool.rs:45-123 | giving back what was wholly free before it was booked restores the pool |
| `Pool.ReserveCardMeets` | src/resource/pool.rs:55-63 | a qualification's card was wholly free and is held whole |
| `Pool.ReserveCardIff` | src/resource/pool.rs:55-63 | a card is handed over for a qualification exactly if it reports VRAM and none of it is taken, blocked or not |
| `Pool.ResourcePool.TryReserve` | src/resource/pool.rs:84-113 | the same of the pool's own fields: when it succeeds, which cards it gives, and what is left; on a failure nothing changes |
| `Pool.ResourcePool.Release` | src/resource/pool.rs:115-123 | the pool gains exactly what comes back, and stays within its totals |
| `Pool.ResourcePool.Book` | src/resource/pool.rs:43-53 | what is booked is taken off, stopping at zero |
| `Pool.ResourcePool.ReserveOneCard` | src/resource/pool.rs:55-63 | one whole card is taken if it is free, blocked or not |
| `Placement.PlaceMemberMeets` | src/resource/placement.rs:10-18 | a member gets the fewest-card option that fits any usable node, on the first such node, and none exactly when nothing fits |
| `Placement.PlacesIff` | src/resource/placement.rs:10-18 | the same of what each usable node can reserve, whatever the other nodes are |
| `Placement.RoomIffSomeOption` | src/resource/pool.rs:72-82 | a node could fit some option exactly if its totals hold the CPU, the memory and as many cards as asked for, or 1, 2, 4 or 8 that together hold the VRAM when only that is given |
| `Placement.PlaceAllMeets` | src/resource/placement.rs:7-31 | every member gets what it would get alone on what the earlier ones left |
| `Placement.TryOptions` | src/resource/placement.rs:11-18 | a miss leaves every pool as it was |
| `Placement.RollBack` | src/resource/placement.rs:22-27 | giving all members back restores every pool, also with several on one node |
| `Placement.Place` | src/resource/placement.rs:7-31 | all members are placed and taken off the pools, or the pools are as before |
| `Decisions.AdmittedIffPlaceable` | src/ipc/server.rs:77-88 | a job is admitted exactly if it could be placed on the nodes when all are free, unblocked and online |
| `Decisions.HopeIffPlaceable` | src/scheduler/mod.rs:457-460 | a job turned down could go elsewhere exactly if it could be placed so on the nodes that have not turned it down |
| `Decisions.AcceptableIff` | src/ipc/server.rs:66-88 | a workflow is accepted exactly if it is valid and for each job some node has room by its totals |
| `Decisions.QueuedExactly` | src/scheduler/mod.rs:274-306 | queued is exactly each Pending job all of whose dependencies are jobs of its run that Succeeded, whatever else the run does; all else stays |
| `Decisions.SkippedExactly` | src/scheduler/mod.rs:308-346 | skipped is exactly each Pending or Queued job with a dependency that failed, was skipped, cancelled or timed out, or was interrupted; all else stays |
| `Decisions.UsableIs` | src/scheduler/mod.rs:362-370 | a job may go to a node exactly if that node is online and has not turned it down |
| `Decisions.PlacedIff` | src/scheduler/mod.rs:359-382 | a queued job gets a place exactly if such a node can reserve one of its options |
| `Decisions.LaunchBecomes` | src/scheduler/mod.rs:420-478 | the whole state after a launch came back: job, reservation, pools and what is to be written |
| `Decisions.PollBecomes` | src/scheduler/mod.rs:553-606 | the whole state after a poll came back |
| `Decisions.CancelMarks` | src/ipc/server.rs:268-286 | a cancel marks exactly the running jobs of its run |
| `Decisions.WriteSays` | src/store/mod.rs:117-141 | a write makes the job's row, and no other, say what the job is, where it runs and with what |
| `Decisions.TakenBackIff` | src/store/mod.rs:157-190 | taken back is exactly each job of each run with a row that says Pending, Queued or Running |
| `Decisions.TakenBackAs` | src/daemon/recover.rs:41-94 | such a job is what its row says, or Pending without one; one that ran is Interrupted unless found, and only found ones hold anything |
| `Decisions.TakenBackRows` | src/daemon/recover.rs:20-66 | rows of jobs that ran and were not found say Interrupted, the others stay, and nothing is under way |
| `Ledger.LedgerKept` | src/scheduler/mod.rs:117-610 | free plus held equals total for CPU, memory and each card of each node, after every step and whatever executors answer |
| `Ledger.CardsAreExclusive` | src/resource/pool.rs:125-147 | no card is held by two jobs or qualifications |
| `Ledger.CardsAreFreeOrHeld` | src/resource/pool.rs:125-147 | a card is wholly free or wholly held, and held by someone exactly when it is not free |
| `Ledger.ReleaseFits` | src/resource/pool.rs:115-123 | no release overflows |
| `Ledger.PlacedOne` | src/scheduler/mod.rs:366-380 | a queued job is placed on a usable node that has all of its allocation free |
| `Dependencies.StepMoves` | src/scheduler/mod.rs:275-610 | every job moves along the job state diagram only; ends never change; a node turns a job down at most once |
| `Dependencies.StepFollowsDiagram` | src/scheduler/mod.rs:275-610 | the diagram arrow by arrow; only a Queued job is turned down, and only by a node that had not before |
| `Dependencies.OrderKept` | src/scheduler/mod.rs:275-346 | admitted jobs keep having only dependencies that succeeded, skipped ones a dependency that ended badly |
| `Dependencies.OrderMeans` | src/scheduler/mod.rs:275-346 | what that order says of a job in each state |
| `Dependencies.NoQueuedSkips` | src/scheduler/mod.rs:309-346 | no queued job is ever skipped |
| `Dependencies.ValidIsGood` | src/workflow/dag.rs:30-38 | a validated workflow has its dependencies inside it, and an order |
| `Dependencies.LaunchAppliedHopes` | src/scheduler/mod.rs:448-467 | a job turned down stays queued only if another node could take it |
| `Dependencies.DepsKept` | src/scheduler/mod.rs:275-610 | every step keeps dependency order, whole runs, and for each waiting job a node that has not turned it down and could fit it |
| `Stored.StoredKept` | src/scheduler/mod.rs:253-271 | after every prefix of the writes each row says what its job is, or was until the write now due, and rests only on stored rows |
| `Stored.WrittenInOrder` | src/store/mod.rs:117-141 | a row written for an admitted or skipped job finds the rows it rests on already there |
| `Recovery.StoredRowsAreSound` | src/scheduler/mod.rs:253-271 | after every prefix of the writes the Running rows name whole cards and fit each node's totals |
| `Recovery.RunningRowsShareNoCard` | src/store/mod.rs:117-141 | no two Running rows hold the same card |
| `Recovery.BookingIsExact` | src/daemon/recover.rs:40-53 | booking the rows found again never cuts anything off: pools end at their totals less exactly those rows |
| `Recovery.RestartRebuilds` | src/daemon/recover.rs:20-66 | a restart at any point, whichever running jobs it finds, rebuilds a state in which every invariant holds |
| `Recovery.RestoredClaim` | src/daemon/recover.rs:41-61 | after a restart exactly the jobs found again hold something, each what its row says |
| `Recovery.FitKept` | src/scheduler/mod.rs:546-609 | what is held and what unwritten ends still show as held fit each node together |
| `Recovery.EveryStateIsGood` | src/scheduler/mod.rs:82-610 | all of these hold in every state of every run, crashes included |
| `Progress.SkipHasCause` | src/scheduler/mod.rs:309-346 | a skipped job depends, directly or not, on one that failed, was cancelled or was lost |
| `Progress.SucceededMeansAll` | src/workflow/model.rs:169-189 | by its jobs in memory a run counts as Succeeded if and only if every job succeeded |
| `Model.DerivedIs` | src/workflow/model.rs:169-189 | each of the five run states, and when a run is in it, in terms of its jobs' states |
| `Progress.OpenFromStates` | src/workflow/model.rs:169-189 | Running and Pending depend only on which states occur |
| `Progress.RunEndsStay` | src/workflow/model.rs:169-189 | from any state of a lifetime to any later one, a run that Failed or Succeeded stays so, and one Cancelled can only become Failed |
| `Progress.LaunchDecides` | src/scheduler/mod.rs:420-478 | a launched job runs exactly if the launch took; it fails exactly on an error or when the last node that could take it turned it down; only a launch that took keeps its reservation |
| `Progress.PollDecides` | src/scheduler/mod.rs:553-606 | no answer and still running touch nothing; an exit ends the job as cancelled, succeeded or failed, and frees what it held |
| `Progress.CancelStaysKnown` | src/ipc/server.rs:275-278 | a cancel is not forgotten before a restart: once the next poll round knows of it, an exit ends the job as Cancelled |
| `Cancels.StepMarks` | src/ipc/server.rs:268-286 | only a cancel of its own run marks a job, and only while it is running |
| `Cancels.CancelledByItsRun` | src/ipc/server.rs:268-286 | in every run, crashes included, a job is being cancelled, or ended as Cancelled, in memory or by its row, only if a cancel of its own run came while it was running |
| `Progress.StoredEndsStay` | src/store/mod.rs:117-154 | a stored end is final, crashes and restarts included |
| `StoredRuns.DerivedFromRows` | src/store/mod.rs:338-346 | by its rows a run counts as Succeeded if and only if every row says Succeeded |
| `StoredRuns.RowsSucceededMeans` | src/store/mod.rs:338-346 | that is, it has a row, and each says Succeeded |
| `StoredRuns.StoredSucceededMeansAll` | src/store/mod.rs:338-346 | if it counts as Succeeded, every stored job succeeded, and every job of the run did if and only if each has a row |
| `StoredRuns.StoredRunEndsStay` | src/store/mod.rs:338-346 | from any state of a run to any later one, crashes included, Failed by its rows stays, Cancelled can only become Failed, and Succeeded stays once every job has a row |
| `StoredRuns.StaysSucceededUnlessReopened` | src/store/mod.rs:117-141 | a step ends a run's being Succeeded by its rows if and only if it is the first write of a job that has not succeeded |
| `StoredRuns.SucceededStaysIff` | src/store/mod.rs:117-141 | over any stretch of a run, crashes included, Succeeded holds all along if and only if there is no such write |
| `StoredRuns.RestartDropsIff` | src/store/mod.rs:158-163 | a restart leaves a run and its unstored jobs out if and only if all its rows have ended, and what it counts as does not change |
| `StoredRuns.LostForGood` | src/store/mod.rs:158-163 | a run left out is left out for ever, and its rows stay |
| `TwoJobs.SucceededRunReopens` | src/ipc/server.rs:96-98 | a run of two jobs, submitted in part, that counts as Succeeded and after the next write does not |
| `TwoJobs.SecondJobIsLost` | src/store/mod.rs:158-163 | the same with a second crash: the run reads Succeeded and its second job is gone |
| `Progress.NoDeadlock` | src/scheduler/mod.rs:275-346 | a run with pending jobs and none queued or running has one the next tick queues or skips |
| `Progress.IdleNodesTakeAny` | src/scheduler/mod.rs:359-382 | with all nodes online, idle and unblocked, any queued job can be placed |
| `Progress.TransitionsAreListed` | src/scheduler/mod.rs:253-610 | a step changes a job's state or who turned it down exactly if it lists the job for writing; once listed, a job makes no other transition before its write |
| `Progress.RankFalls` | src/scheduler/mod.rs:275-610 | no step takes a job further from its end, and a transition takes it nearer |
| `Progress.TransitionsAreBounded` | src/scheduler/mod.rs:275-610 | between two starts of the controller, w jobs on n nodes make at most w * (n + 3) transitions |
| `Sections.NoneLeftThatFits` | src/scheduler/mod.rs:364-381 | after the reserving loop, a job left queued fits no node it may go to, in whatever order jobs were tried |
| `Sections.LeftOutFitsNowhere` | src/scheduler/mod.rs:364-381 | the same of each online node that has not turned it down, and each option |
| `Sections.NewReservations` | src/scheduler/mod.rs:364-381 | reservations are made only for queued jobs, on online nodes that have not turned them down, and earlier ones stay |
| `Sections.IdleNodesPlaceSome` | src/scheduler/mod.rs:359-382 | with all nodes online, idle and unblocked and some job queued, the reserving loop places at least one job |
| `Sections.ReservingIsSteps` | src/scheduler/mod.rs:359-382 | the reserving loop is steps of the controller |
| `Sections.ApplyingKeepsBooks` | src/scheduler/mod.rs:415-479 | applying launches in any order keeps the books |
| `Sections.ApplyingPollsKeepsBooks` | src/scheduler/mod.rs:548-607 | applying polls in any order keeps the books |
| `Sections.WritingAllIsSteps` | src/scheduler/mod.rs:253-271 | the flush is one write after another |
| `Daemon.DaemonState.AdvancePending` | src/scheduler/mod.rs:274-306 | queued and listed are exactly the Pending jobs all of whose dependencies are jobs of their run in state Succeeded; every other job is unchanged |
| `Daemon.DaemonState.CascadeSkipped` | src/scheduler/mod.rs:308-346 | skipped and listed are exactly the Pending and Queued jobs with a dependency in their run that ended without success; every other job is unchanged |
| `Daemon.DaemonState.FlushTransitions` | src/scheduler/mod.rs:253-271 | each listed job's row becomes what the job is, and no other row changes |
| `Daemon.DaemonState.ReserveQueued` | src/scheduler/mod.rs:359-382 | every queued job is tried once, on what earlier ones left; of one left out, no online node that has not turned it down can reserve any option |
| `Daemon.DaemonState.ApplyOutcome` | src/scheduler/mod.rs:420-478 | a launch's result is applied to job and pools as the controller's step says |
| `Daemon.DaemonState.ApplyOutcomes` | src/scheduler/mod.rs:415-479 | all results are applied, no reservation is left open, and the books balance |
| `Daemon.DaemonState.TakeSnapshot` | src/scheduler/mod.rs:495-516 | exactly the running jobs are polled, with the cancels known by then |
| `Daemon.DaemonState.ApplyPollReply` | src/scheduler/mod.rs:553-606 | a poll's result is applied to job and pools as the controller's step says |
| `Daemon.DaemonState.ApplyPolls` | src/scheduler/mod.rs:548-607 | all polls are applied and the books balance |
| `Daemon.DaemonState.LaunchTasks` | src/scheduler/mod.rs:384-411 | every reserved job gets the answer of its own launch call |
| `Daemon.DaemonState.PollJobs` | src/scheduler/mod.rs:518-546 | every job of the snapshot gets the reply of its own poll |
| `Daemon.DaemonState.Tick` | src/scheduler/mod.rs:244-251 | a whole round, whatever the nodes answer, is steps of the controller; at its end the books balance, all is written and nothing is in flight |
| `Daemon.DaemonState.CheckCard` | src/scheduler/mod.rs:141-176 | this card and no other is marked, and held whole for a qualification exactly if one is due and none of it is taken |
| `Daemon.DaemonState.FinishQualifications` | src/scheduler/mod.rs:217-242 | exactly the qualifications that are over give their cards back, once, and the books balance |
| `Daemon.DaemonState.Submit` | src/ipc/server.rs:66-103 | a workflow is taken in if and only if it is valid and for each job some node has room by its totals; then exactly its jobs are added, Pending, each with its row; otherwise nothing changes |
| `Daemon.InsertingIsSteps` | src/ipc/server.rs:95-100 | taking a run in is the controller's submit steps |
| `Daemon.DaemonState.Cancel` | src/ipc/server.rs:268-286 | exactly the run's running jobs are marked and returned; every other job is unchanged |
| `Daemon.DaemonState.TakeBackJob` | src/daemon/recover.rs:41-61 | a job is rebuilt from its spec and row; a running one is booked if found and ends as Interrupted if not |
| `Daemon.DaemonState.TakeBackRuns` | src/daemon/recover.rs:20-66 | starting again produces exactly the recovered state, from the rows alone |
| `Executor.RestartForgets` | src/executor/shell.rs:136-148 | after its daemon started again, a node starts a job a second time, and answers a poll with an error, exactly when it has no scopes or the process left neither a scope nor an exit file |
| `Executor.KilledJobIsForgotten` | src/executor/shell.rs:174-191 | a job that ran in its scope and was killed is such a one |
| `Executor.OnlyMisjudgedEnds` | src/executor/shell.rs:179-191 | a poll's reply ends the job of a living process exactly if the check failed, or found nothing of a process that is not the daemon's child |
| `Executor.LivingQualificationIsOver` | src/scheduler/mod.rs:217-242 | a qualification that lives on loses its card exactly if it is misjudged, or past its timeout and stopping it had no effect |
| `Remote.RemoteExecutor.Connect` | src/executor/remote.rs:29-35 | succeeds exactly when the node counted as online and the tunnel answered |
| `Remote.RemoteExecutor.Exchange` | src/executor/remote.rs:37-46 | a late or broken reply is Unreachable and marks the node offline; an error reply is an error |
| `Remote.RemoteExecutor.Launch` | src/executor/remote.rs:64-86 | the result is Unreachable if and only if nothing was sent; a lost reply counts as launched |
| `Remote.RemoteExecutor.Poll` | src/executor/remote.rs:88-97 | the result is Unreachable whenever no reply came, sent or not |
| `Worker.Worker.Restart` | src/worker.rs:15-38 | the daemon starts again knowing exactly the processes that left a trace |
| `Worker.Worker.Launch` | src/worker.rs:40-57 | a job is started exactly if the node does not know its process and the start succeeds, so at most once between two starts of the daemon; the reply says whether the process is there |
| `Worker.Worker.Known` | src/worker.rs:107-117 | a job is known exactly when it is in the table or, with scopes, its process left a trace that is seen |
| `Worker.Worker.ExitCode` | src/worker.rs:20-30 | the exit code is what the machine says, and kept once given |
| `Worker.Worker.Poll` | src/worker.rs:59-69 | the reply is the machine's own answer, right or wrong, if the node sees the job, and an error otherwise; a code once given is given until the daemon starts again |
| `Worker.Worker.Kill` | src/worker.rs:71-83 | only a known, living process of that job is ended, without an exit file, and nothing is signalled once a code was given for it |
| `Worker.KilledThenLaunchedAgain` | src/executor/shell.rs:136-191 | started, killed, daemon started again: a poll is an error and a repeated Launch starts the job a second time |
| `Worker.EndedThenLaunchedAgain` | src/executor/shell.rs:136-191 | if it ended by itself instead, its exit file gives the code and it is not started again |
| `Worker.UnseenThenKilled` | src/executor/shell.rs:179-191 | a living job of which a poll found nothing counts as exited with -1 from then on, and a kill does not end it |
| `Protocol.SysStepIsStep` | src/scheduler/mod.rs:384-411 | whatever the network and the nodes do, the controller only makes its own steps |
| `Protocol.SendKeeps` | src/executor/remote.rs:64-75 | sending keeps the invariant that a job's requests and processes are all at the one node it was sent to |
| `Protocol.ArriveKeeps` | src/worker.rs:40-57 | a request arriving late keeps that invariant: its job is started there once and nowhere else |
| `Protocol.ArriveLateKeeps` | src/worker.rs:40-57 | a request from before a crash keeps it too, whenever it arrives: what it starts is a stray |
| `Protocol.ReplyKeeps` | src/executor/remote.rs:75-85 | after a rejection or an error nothing of the job is anywhere, and after a lost reply it can only be at its node |
| `Replies.NodeAnswersLaunch` | src/worker.rs:40-57 | a node starts a job only if it does not know it, and answers launched, rejected or error as the start went |
| `Replies.LaunchReplyDecides` | src/scheduler/mod.rs:430-476 | launched, and the job runs where it was sent; rejected, and it waits on with that node struck off if another has room for it, and failed if none has; any other reply, and it failed; what was reserved is kept exactly if it runs |
| `Replies.LostReplyDecides` | src/executor/remote.rs:79-84 | no reply to a request that went out, and the job runs |
| `Replies.UnsentDecides` | src/scheduler/mod.rs:442-447 | a request that never left, and the job waits on unchanged, its reservation given back |
| `Replies.PollReplyDecides` | src/scheduler/mod.rs:563-606 | from the process on the node, and how far it can be seen, to the job's state, its exit code and what it holds |
| `Replies.LostPollDecides` | src/scheduler/mod.rs:563-565 | no reply to a poll, and nothing changes |
| `Protocol.PollKeeps` | src/executor/remote.rs:88-97 | a reply that ends a job leaves no request for it that could still arrive |
| `Protocol.CrashKeeps` | src/daemon/recover.rs:20-66 | a crash at any point and a restart, whichever jobs are found, give a state in which all of this holds again |
| `Protocol.StartedAtMostOnce` | src/scheduler/mod.rs:430-476 | in every run, crashes included, the requests made between two starts of the controller start each job at most once, over all nodes and whatever replies are lost |
| `Protocol.StartsAreCounted` | src/worker.rs:40-57 | a start is counted exactly when such a request finds no process and starts one |
| `Protocol.AliveIsBooked` | src/scheduler/mod.rs:442-606 | a process that is alive, or may yet start, and is no stray is booked at its node, if and only if its job did not end on a node's misjudging it |
| `Protocol.AliveIsAlwaysBooked` | src/scheduler/mod.rs:82-610 | in every state of every run, crashes included, a living process that is not booked is a stray, left by a crash or started by a late request, or was misjudged and its job has ended |
| `Protocol.StraysComeFrom` | src/daemon/recover.rs:20-66 | a process becomes a stray only by a crash or when a late request starts it |
| `Protocol.LostOnlyByMisjudging` | src/scheduler/mod.rs:563-606 | a job is lost track of only by a poll whose node misjudges its living process |
| `Protocol.CrashBooksFound` | src/daemon/recover.rs:40-61 | after a restart a process is booked at its node if and only if its row said Running there and it was found again; the others are the strays |
| `Protocol.RowTellsWhatIsBooked` | src/scheduler/mod.rs:384-481 | what is booked has a Running row with its node exactly when its job is Running and that was written |
| `Protocol.OnlyMisjudgedIsReleased` | src/scheduler/mod.rs:563-606 | an answer ends the job of a living process exactly when its node misjudges it |
| `Protocol.MisjudgedProcessIsReleased` | src/scheduler/mod.rs:563-606 | the three steps by which such an answer frees a living process's resources, and whether its job ends as Failed or as Cancelled |
| `OneJob.UncheckedProcessGetsReleased` | src/scheduler/mod.rs:566-573 | a run of one job on one node, from an empty controller on, that ends with its process alive and nothing booked for it |
| `OneJob.UnseenProcessGetsReleased` | src/executor/shell.rs:187-190 | the same by an exit with -1, of a process that its node's daemon cannot wait for |
| `OneJob.UnwrittenLaunchIsLost` | src/scheduler/mod.rs:384-481 | a run, from an empty controller on, with a crash between a launch and its write: the process lives, its job is Queued and nothing is booked |
| `OneJob.LateRequestStartsUnbooked` | src/worker.rs:40-57 | a run, from an empty controller on, with a crash while a launch request is under way, which then starts the process with nothing booked |
| `UnitName.EscapeRoundTrip` | src/executor/shell.rs:235-242 | a decoder undoes the escaping for every byte string |
| `UnitName.EscapeIsAllowed` | src/executor/shell.rs:238-240 | an escaped id has only characters a unit name can hold |
| `UnitName.EscapedByteIs` | src/executor/shell.rs:238-240 | letters, digits and hyphens are themselves, any other byte an underscore and two lower-case hex digits |
| `UnitName.UnitNamesDiffer` | src/executor/shell.rs:235-242 | different jobs have different unit names, for hyphenated UUIDs and `qualify-` ids alike |
| `UnitName.UnitNamesCanCollide` | src/executor/shell.rs:241 | with arbitrary run ids two jobs could share one |
| `Vram.StartsAreTheFirstWords` | src/resource/cuda.rs:77-81 | with u32 arithmetic the threads start at exactly the first words, one each in order, if and only if the grid has at most 2^32 of them |
| `Vram.ThreadsStartApart` | src/resource/cuda.rs:77-81 | with u32 arithmetic threads start at words of their own if and only if the grid has at most 2^32 threads |
| `Vram.StrideIsThreads` | src/resource/cuda.rs:82-84 | the u32 stride is the number of threads if and only if the card has fewer than 2^22 processors |
| `Vram.VisitorIsRemainder` | src/resource/cuda.rs:81-95 | each word belongs to the one thread its number leaves as remainder |
| `Vram.Card.Fill` | src/resource/cuda.rs:63-98 | every word gets its pattern, for every grid and size and however the threads' turns interleave |
| `Vram.Card.Check` | src/resource/cuda.rs:100-142 | the u32 counter gains exactly the number of words read back wrong |
| `Vram.SeedsAreInverse` | src/resource/cuda.rs:258-273 | the first pass writes each word's number times the constant, the second its bitwise complement |
| `Vram.ProductsDiffer` | src/resource/cuda.rs:87-89 | numbers that differ are written as values that do |
| `Vram.Card.TestPatterns` | src/resource/cuda.rs:258-279 | the count is exactly the mismatches of both passes and cannot wrap |
| `Vram.NoMismatchMeansAllMatched` | src/resource/cuda.rs:274-279 | a count of zero means that every read of both passes matched |
| `Vram.StuckBitShows` | src/resource/cuda.rs:258-278 | a bit stuck at 0 or 1 is miscounted in a pass, and in exactly one if the word is right otherwise |
| `Vram.TestWords` | src/resource/cuda.rs:259-266 | as many whole words as half of what is free, and 1 GB, hold |
| `Quarantine.QuarantinedIff` | src/resource/quarantine.rs:34-46 | a card is quarantined exactly when a fault came after its last clear or pass, with the first such fault's reason |
| `Quarantine.FaultsAre` | src/resource/quarantine.rs:14-46 | which events are faults, and the reason each gives |
| `Quarantine.SameCardIff` | src/resource/quarantine.rs:123-126 | a card is recognised by its UUID wherever it sits, and by its place without one |
| `Quarantine.LoadedUntilCleared` | src/resource/quarantine.rs:55-66 | a loaded quarantine stays until the first clear and counts for nothing after it |
| `Quarantine.Quarantines.Get` | src/resource/quarantine.rs:92-94 | a card's quarantine is what its events since loading make of what was loaded for its UUID, or its index without one |
| `Quarantine.Quarantines.Handle` | src/resource/quarantine.rs:68-90 | one event is applied to one card; others are untouched; a new quarantine asks for another test |
| `Quarantine.Quarantines.RecordTest` | src/resource/quarantine.rs:96-105 | a pass clears, a failure quarantines with its own reason or keeps an earlier one, and the card counts as tested |

## Left out

- SSH tunnels, sockets, JSON and YAML, SQLite, systemd and cgroup calls, NVML, the CUDA driver and DCGM: their answers are
  parameters or nondeterministic steps.
- Command line, printing, `explain`, `watch`, log tailing, reasons, code and string conversions: easy members.
- Fairness: jobs are tried in any order, as the code's HashMap gives them.
- Runs are flattened: the controller's map from run to jobs is one map from run and job; runs are never removed.
- Job handles, timestamps, log paths, sequence numbers, exit codes of rows, legacy rows without a spec, and the set of cards
  to test again after a killed job.
- Clocks: the 24 hours between tests, settle times, timeouts and backoff are nondeterministic choices.
- Starting at most once across a crash of the controller: a row may still say Queued after a launch, and the code has no
  gate. What is proved is once by the requests made between two starts, and exactly what a restart books.
- Qualifications in the launch protocol, whose timed-out run is stopped without looking at the result; and qualifications
  across a restart, which are not stored.
- A crash during recovery itself: rows already interrupted are those of a further restart.
- The events of the broadcast ring that the flush sends, and the hash kernel, which only compares equal loops.
- The job named in `DagError::Cycle` may lie behind a cycle and not on it; `TopoSort` says only that a cycle exists.
- The order of loads and stores of different threads is free, but a load never returns a value not yet stored; since only
  the sender stores, nothing is lost by that.
- Protocol.PollKeeps: a poll and its reply are one step, because the scheduler waits for it and the process can only end in
  between.

/** The scheduler's and the server's own code, a method for each section under the locks, updating the controller's
 *  fields in place: src/scheduler/mod.rs, src/ipc/server.rs and src/daemon/recover.rs. */
module Daemon {
  import opened Wrappers
  import opened Spec
  import opened Pool
  import opened Placement
  import opened Model
  import opened Controller
  import opened Ledger
  import opened Dependencies
  import opened Sections
  import opened Executor
  import opened Decisions
  import Dag

  /** What a node must be able to take back: it gave it out. */
  ghost predicate CanTakeBack(pools: seq<PoolState>, placed: Placed) {
    && placed.node < |pools| && WholeCards(pools[placed.node].total, placed.allocation.gpus)
    && forall res :: Available(pools[placed.node], res) + Amount(placed.allocation,
        res) <= Capacity(pools[placed.node].total, res)
  }

  lemma HeldCanBeTakenBack(c: Ctl, h: Holder)
    requires LedgerInv(c) && ClaimOf(c, h).Some?
    ensures CanTakeBack(c.pools, ClaimOf(c, h).value)
  {
    var placed := ClaimOf(c, h).value;
    assert GoodClaim(c.pools, placed);
    forall res
      ensures Available(c.pools[placed.node], res) + Amount(placed.allocation,
          res) <= Capacity(c.pools[placed.node].total, res)
    {
      ReleaseFits(c, h, placed, res);
    }
  }

  class DaemonState {
    const pools: seq<ResourcePool>
    var jobs: map<JobKey, JobInstance>
    var tasks: map<JobKey, AdmitTask>
    var polls: map<JobKey, PollEntry>
    var qualifying: map<nat, Placed>
    var toWrite: set<JobKey>
    var specs: map<RunId, Workflow>
    var rows: map<JobKey, Row>
    var submitting: set<RunId>
    ghost var phase: Phase
    ghost var released: map<JobKey, Execution>

    ghost function Abs(): Ctl
      reads this, pools
    {
      Ctl(jobs, States(pools), tasks, polls, qualifying, phase, toWrite, released, specs, rows, submitting)
    }

    // Pending -> Queued, and skipping

    /** Pending jobs whose dependencies all succeeded become Queued. */
    method AdvancePending()
      requires phase.Checking? && toWrite == {}
      modifies this`jobs, this`toWrite, this`phase
      ensures Abs() == Advanced(old(Abs()))
      ensures jobs.Keys == old(jobs).Keys && forall k | k in jobs ::
                jobs[k] == if old(jobs)[k].state == Pending
                              && forall dep | dep in old(jobs)[k].spec.dependsOn ::
                                   JobKey(k.run, dep) in old(jobs)
                                   && old(jobs)[JobKey(k.run, dep)].state == JobState.Succeeded
                           then old(jobs)[k].(state := Queued) else old(jobs)[k]
      ensures toWrite == set k | k in jobs && jobs[k] != old(jobs)[k]
    {
      QueuedExactly(Abs());
      var toQueue := FindReady();
      SetStates(toQueue, Queued);
      phase := Cascading;
    }

    method FindReady() returns (toQueue: set<JobKey>)
      ensures toQueue == ToQueue(jobs)
    {
      toQueue := {};
      var rest := jobs.Keys;
      while rest != {}
        invariant rest <= jobs.Keys && toQueue == ToQueue(jobs) - rest
      {
        var k :| k in rest;
        if jobs[k].state.Pending? && DepsSucceeded(jobs, k) {
          toQueue := toQueue + {k};
        }
        rest := rest - {k};
      }
    }

    /** Pending or queued jobs with a dependency that ended badly become Skipped. */
    method CascadeSkipped()
      requires phase.Cascading? && toWrite == {}
      modifies this`jobs, this`toWrite, this`phase
      ensures Abs() == Cascaded(old(Abs()))
      ensures jobs.Keys == old(jobs).Keys && forall k | k in jobs ::
                jobs[k] == if old(jobs)[k].state in {Pending, Queued}
                              && exists dep | dep in old(jobs)[k].spec.dependsOn ::
                                   && JobKey(k.run, dep) in old(jobs)
                                   && old(jobs)[JobKey(k.run, dep)].state in
                                        {Failed, Skipped, JobState.Cancelled, TimedOut, Interrupted}
                           then old(jobs)[k].(state := Skipped) else old(jobs)[k]
      ensures toWrite == set k | k in jobs && jobs[k] != old(jobs)[k]
    {
      SkippedExactly(Abs());
      var toSkip := FindHopeless();
      SetStates(toSkip, Skipped);
      phase := Reserving;
    }

    method FindHopeless() returns (toSkip: set<JobKey>)
      ensures toSkip == ToSkip(jobs)
    {
      toSkip := {};
      var rest := jobs.Keys;
      while rest != {}
        invariant rest <= jobs.Keys && toSkip == ToSkip(jobs) - rest
      {
        var k :| k in rest;
        if (jobs[k].state.Pending? || jobs[k].state.Queued?) && SomeDepBad(jobs, k) {
          toSkip := toSkip + {k};
        }
        rest := rest - {k};
      }
    }

    method SetStates(keys: set<JobKey>, state: JobState)
      requires keys <= jobs.Keys && toWrite == {}
      modifies this`jobs, this`toWrite
      ensures jobs == WithState(old(jobs), keys, state) && toWrite == keys
    {
      var rest := keys;
      while rest != {}
        invariant rest <= keys && toWrite == keys - rest
        invariant jobs == WithState(old(jobs), keys - rest, state)
      {
        var k :| k in rest;
        jobs := jobs[k := jobs[k].(state := state)];
        toWrite := toWrite + {k};
        rest := rest - {k};
      }
    }

    // Writing a section's jobs to the store

    /** One row per job, as the job is now. */
    method FlushTransitions()
      modifies this`rows, this`toWrite, this`released
      ensures Abs() == WrittenAll(old(Abs()), old(toWrite))
      ensures toWrite == {} && rows == map k | k in old(rows).Keys + (old(toWrite) * jobs.Keys) ::
                if k in old(toWrite) && k in jobs
                then Row(jobs[k].state, if jobs[k].executions == [] then None else Some(jobs[k].executions[0]))
                else old(rows)[k]
    {
      FlushSays(rows, jobs, toWrite);
      WriteRows(toWrite);
      assert toWrite - toWrite == {};
      released := released - toWrite;
      toWrite := {};
    }

    method WriteRows(keys: set<JobKey>)
      modifies this`rows
      ensures rows == RowsWritten(old(rows), jobs, keys)
    {
      var rest := keys;
      while rest != {}
        invariant rest <= keys && rows == RowsWritten(old(rows), jobs, keys - rest)
      {
        var k :| k in rest;
        RowsWrittenOneMore(old(rows), jobs, keys - (rest - {k}), k);
        assert keys - (rest - {k}) - {k} == keys - rest;
        if k in jobs {
          rows := rows[k := RowOf(jobs[k])];
        }
        rest := rest - {k};
      }
      assert keys - rest == keys;
    }

    // Queued -> Running

    /** One queued job placed, if it fits now. */
    method TryReserve(k: JobKey, online: seq<bool>)
      requires Pools(pools) && |online| == |pools|
      modifies this`tasks, pools
      ensures Pools(pools)
      ensures Abs() == TryReserved(old(Abs()), online, k)
    {
      if k !in jobs || !jobs[k].state.Queued? || k in tasks {
        return;
      }
      ghost var before := States(pools);
      var usable := Usable(online, jobs[k]);
      var placement := Place(pools, usable, [jobs[k].spec.resources]);
      PlaceSingle(before, usable, jobs[k].spec.resources);
      if placement.Some? {
        TakenSingle(before, placement.value);
        tasks := tasks[k := AdmitTask(placement.value[0], None)];
      }
    }

    /** Every queued job tried once, in some order. */
    method ReserveQueued(online: seq<bool>) returns (ghost order: seq<JobKey>)
      requires Pools(pools) && |online| == |pools|
      modifies this`tasks, pools
      ensures Pools(pools)
      ensures Abs() == ReservedAll(old(Abs()), online, order)
      ensures forall k | k in jobs :: k in order
      ensures forall k, n, option | && k in jobs && jobs[k].state.Queued? && k !in tasks
                                    && 0 <= n < |pools| && online[n] && n !in jobs[k].rejected
                                    && option in GpuOptions(jobs[k].spec.resources) ::
                Reserve(States(pools)[n], option).None?
      ensures forall k | k in tasks && k !in old(tasks) ::
                && k in jobs && jobs[k].state.Queued? && tasks[k].result.None?
                && tasks[k].placed.node < |pools| && online[tasks[k].placed.node]
                && tasks[k].placed.node !in jobs[k].rejected
      ensures forall k | k in old(tasks) :: k in tasks && tasks[k] == old(tasks)[k]
    {
      order := [];
      ghost var start := Abs();
      var rest := jobs.Keys;
      while rest != {}
        invariant Pools(pools) && Abs() == ReservedAll(start, online, order)
        invariant forall k | k in jobs :: k in rest || k in order
      {
        var k :| k in rest;
        TryReserve(k, online);
        order := order + [k];
        assert order[..|order| - 1] + [k] == order;
        rest := rest - {k};
      }
      AllTried(start, online, order);
    }

    /** A launch call returned. */
    method RecordLaunch(k: JobKey, result: LaunchResult)
      requires k in tasks
      modifies this`tasks
      ensures Abs() == WithResult(old(Abs()), k, result)
    {
      tasks := tasks[k := tasks[k].(result := Some(result))];
    }

    /** Every reserved job sent to its node, with no lock held; `answer` is what comes of each. */
    method LaunchTasks(answer: JobKey -> LaunchResult)
      modifies this`tasks, this`phase
      ensures Abs() == LaunchesAnswered(old(Abs()), answer)
      ensures tasks == map k | k in old(tasks) :: AdmitTask(old(tasks)[k].placed, Some(answer(k)))
    {
      var rest := tasks.Keys;
      while rest != {}
        invariant rest <= tasks.Keys
        invariant tasks == map k | k in old(tasks) :: if k in rest then old(tasks)[k]
                                                      else old(tasks)[k].(result := Some(answer(k)))
      {
        var k :| k in rest;
        RecordLaunch(k, answer(k));
        rest := rest - {k};
      }
      phase := ApplyingLaunches;
    }

    method ReleaseOn(placed: Placed)
      requires Pools(pools) && CanTakeBack(States(pools), placed)
      modifies pools
      ensures Pools(pools) && States(pools) == ReleasedAt(old(States(pools)), placed)
    {
      var pool := pools[placed.node];
      assert States(pools)[placed.node] == pool.State();
      pool.Release(placed.allocation);
    }

    method Start(k: JobKey)
      requires k in tasks && k in jobs
      modifies this`jobs, this`tasks, this`toWrite
      ensures Abs() == Started(old(Abs()), k)
    {
      jobs := jobs[k := jobs[k].(state := Running, executions := [tasks[k].placed])];
      tasks := tasks - {k};
      toWrite := toWrite + {k};
    }

    method DropTask(k: JobKey)
      requires Pools(pools) && k in tasks && CanTakeBack(States(pools), tasks[k].placed)
      modifies this`tasks, pools
      ensures Pools(pools) && Abs() == GivenBack(old(Abs()), k, None)
    {
      ReleaseOn(tasks[k].placed);
      tasks := tasks - {k};
    }

    method GiveBack(k: JobKey, job: Option<JobInstance>)
      requires Pools(pools) && k in tasks && CanTakeBack(States(pools), tasks[k].placed)
      modifies this`jobs, this`tasks, this`toWrite, pools
      ensures Pools(pools) && Abs() == GivenBack(old(Abs()), k, job)
    {
      DropTask(k);
      if job.Some? {
        jobs := jobs[k := job.value];
        toWrite := toWrite + {k};
      }
    }

    /** The job once a node turned it down: another could take it, or none is left. */
    method TurnDown(job: JobInstance, node: nat) returns (now: JobInstance)
      ensures forall task: AdmitTask | task.placed.node == node && task.result == Some(TurnedDown) ::
                NotStarted(States(pools), job, task) == Some(now)
    {
      now := job.(rejected := job.rejected + [node]);
      if !CouldGoElsewhere(States(pools), now) {
        now := now.(state := Failed);
      }
    }

    /** What one launch came to. */
    method ApplyOutcome(k: JobKey)
      requires Pools(pools) && k in tasks && tasks[k].result.Some? && CanTakeBack(States(pools), tasks[k].placed)
      modifies this`jobs, this`tasks, this`toWrite, pools
      ensures Pools(pools) && Abs() == LaunchApplied(old(Abs()), k)
    {
      if k !in jobs {
        GiveBack(k, None);
        return;
      }
      match tasks[k].result.value {
        case Launched => Start(k);
        case Unreachable => GiveBack(k, None);
        case TurnedDown =>
          var job := TurnDown(jobs[k], tasks[k].placed.node);
          GiveBack(k, Some(job));
        case LaunchFailed => GiveBack(k, Some(jobs[k].(state := Failed)));
      }
    }

    /** All launches applied, in some order, and every reservation accounted for. */
    method ApplyOutcomes() returns (ghost order: seq<JobKey>)
      requires Pools(pools) && LedgerInv(Abs()) && ReadyToApply(Abs())
      modifies this`jobs, this`tasks, this`toWrite, pools
      ensures Pools(pools) && LedgerInv(Abs())
      ensures Abs() == LaunchesApplied(old(Abs()), order) && tasks == map[]
    {
      order := [];
      ghost var start := Abs();
      while tasks != map[]
        invariant Pools(pools) && Abs() == LaunchesApplied(start, order)
        decreases |tasks|
      {
        var k :| k in tasks;
        ApplyingKeepsBooks(start, order);
        HeldCanBeTakenBack(Abs(), JobHolder(k));
        AppliedStaysReady(Abs(), k);
        ghost var before := Abs();
        ApplyOutcome(k);
        order := order + [k];
        assert order[..|order| - 1] + [k] == order;
      }
      ApplyingKeepsBooks(start, order);
    }

    // Running -> ended

    /** The running jobs, to be polled once the locks are dropped. */
    method TakeSnapshot()
      requires phase.Snapshotting?
      modifies this`polls, this`phase
      ensures Abs() == Snapped(old(Abs()))
      ensures polls == map k | k in jobs && jobs[k].state == Running :: PollEntry(jobs[k].cancelling, None)
    {
      polls := map[];
      var rest := jobs.Keys;
      while rest != {}
        invariant rest <= jobs.Keys
        invariant polls == map k | k in jobs && k !in rest && jobs[k].state.Running? :: PollEntry(jobs[k].cancelling, None)
      {
        var k :| k in rest;
        if jobs[k].state.Running? {
          polls := polls[k := PollEntry(jobs[k].cancelling, None)];
        }
        rest := rest - {k};
      }
      phase := Polling;
    }

    /** A poll call returned. */
    method RecordPoll(k: JobKey, reply: PollReply)
      requires k in polls
      modifies this`polls
      ensures Abs() == old(Abs()).(polls := old(polls)[k := old(polls)[k].(reply := Some(reply))])
    {
      polls := polls[k := polls[k].(reply := Some(reply))];
    }

    /** Every job of the snapshot polled, with no lock held; `answer` is what comes of each. */
    method PollJobs(answer: JobKey -> PollReply)
      modifies this`polls, this`phase
      ensures Abs() == PollsAnswered(old(Abs()), answer)
      ensures polls == map k | k in old(polls) :: PollEntry(old(polls)[k].cancelling, Some(answer(k)))
    {
      var rest := polls.Keys;
      while rest != {}
        invariant rest <= polls.Keys
        invariant polls == map k | k in old(polls) :: if k in rest then old(polls)[k]
                                                      else old(polls)[k].(reply := Some(answer(k)))
      {
        var k :| k in rest;
        RecordPoll(k, answer(k));
        rest := rest - {k};
      }
      phase := ApplyingPolls;
    }

    method Finish(k: JobKey, job: JobInstance)
      requires Pools(pools) && k in jobs && |jobs[k].executions| == 1 && CanTakeBack(States(pools), jobs[k].executions[0])
      modifies this`jobs, this`polls, this`toWrite, this`released, pools
      ensures Pools(pools) && Abs() == Finished(old(Abs()), k, job)
    {
      var executions := jobs[k].executions;
      SingleExecution(States(pools), executions);
      ReleaseOn(executions[0]);
      Forget(k, job, executions[0]);
    }

    method Forget(k: JobKey, job: JobInstance, held: Execution)
      modifies this`jobs, this`polls, this`toWrite, this`released
      ensures jobs == old(jobs)[k := job] && polls == old(polls) - {k}
      ensures toWrite == old(toWrite) + {k} && released == old(released)[k := held]
    {
      jobs := jobs[k := job];
      polls := polls - {k};
      toWrite := toWrite + {k};
      released := released[k := held];
    }

    /** What one poll came to. */
    method ApplyPollReply(k: JobKey)
      requires Pools(pools) && k in polls && polls[k].reply.Some?
      requires k in jobs ==> |jobs[k].executions| == 1 && CanTakeBack(States(pools), jobs[k].executions[0])
      modifies this`jobs, this`polls, this`toWrite, this`released, pools
      ensures Pools(pools) && Abs() == PollApplied(old(Abs()), k)
    {
      if k !in jobs {
        polls := polls - {k};
        return;
      }
      var job, entry := jobs[k], polls[k];
      match entry.reply.value {
        case NoAnswer => polls := polls - {k};
        case StillRunning => polls := polls - {k};
        case PollFailed => Finish(k, job.(executions := [], state := Failed));
        case Exited(code) =>
          var state := if entry.cancelling then JobState.Cancelled else if code == 0 then JobState.Succeeded
                       else JobState.Failed;
          Finish(k, job.(executions := [], exitCode := Some(code), state := state));
      }
    }

    /** All polls applied, in some order. */
    method ApplyPolls() returns (ghost order: seq<JobKey>)
      requires Pools(pools) && LedgerInv(Abs()) && ReadyToApplyPolls(Abs())
      modifies this`jobs, this`polls, this`toWrite, this`released, pools
      ensures Pools(pools) && LedgerInv(Abs())
      ensures Abs() == PollsApplied(old(Abs()), order) && polls == map[]
    {
      order := [];
      ghost var start := Abs();
      while polls != map[]
        invariant Pools(pools) && Abs() == PollsApplied(start, order)
        decreases |polls|
      {
        var k :| k in polls;
        ApplyingPollsKeepsBooks(start, order);
        RunningJobHolds(Abs(), k);
        HeldCanBeTakenBack(Abs(), JobHolder(k));
        ghost var before := Abs();
        ApplyPollReply(k);
        OnePollFewer(before, k);
        OneMorePoll(start, order, k);
        order := order + [k];
      }
      ApplyingPollsKeepsBooks(start, order);
    }

    // A whole tick

    method EndSection(ghost next: Phase)
      modifies this`rows, this`toWrite, this`released, this`phase
      ensures Abs() == FlushedAll(old(Abs()).(phase := next))
    {
      phase := next;
      FlushTransitions();
    }

    method AdvanceQueued(online: seq<bool>, launched: JobKey -> LaunchResult)
      returns (ghost tried: seq<JobKey>, ghost applied: seq<JobKey>)
      requires Pools(pools) && |online| == |pools|
      requires LedgerInv(Abs()) && phase.Reserving? && toWrite == {} && tasks == map[]
      modifies this`jobs, this`rows, this`tasks, this`toWrite, this`released, this`phase, pools
      ensures Pools(pools) && Abs() == TickAdmitted(old(Abs()), online, launched, tried, applied)
      ensures LaunchesApplied(LaunchesAnswered(ReservedAll(old(Abs()), online, tried), launched), applied).tasks == map[]
    {
      ghost var start := Abs();
      tried := ReserveQueued(online);
      LaunchTasks(launched);
      LaunchedKeepsBooks(start, online, launched, tried);
      applied := ApplyOutcomes();
      EndSection(Snapshotting);
    }

    method AdvanceRunning(polled: JobKey -> PollReply) returns (ghost applied: seq<JobKey>)
      requires Pools(pools) && LedgerInv(Abs()) && phase.Snapshotting? && toWrite == {}
      modifies this`jobs, this`rows, this`polls, this`toWrite, this`released, this`phase, pools
      ensures Pools(pools) && Abs() == TickPolled(old(Abs()), polled, applied)
      ensures PollsApplied(PollsAnswered(Snapped(old(Abs())), polled), applied).polls == map[]
    {
      ghost var start := Abs();
      TakeSnapshot();
      PollJobs(polled);
      PolledKeepsBooks(start, polled);
      applied := ApplyPolls();
      EndSection(Checking);
    }

    method AdvanceWaiting()
      requires phase.Checking? && toWrite == {}
      modifies this`jobs, this`rows, this`toWrite, this`released, this`phase
      ensures Abs() == TickAdvanced(old(Abs()))
    {
      AdvancePending();
      FlushTransitions();
      CascadeSkipped();
      FlushTransitions();
    }

    /** One round of the scheduler, nothing coming in between: whatever the nodes answer, it is steps of the controller,
     *  and the books balance after it. */
    method Tick(online: seq<bool>, launched: JobKey -> LaunchResult, polled: JobKey -> PollReply)
      requires Pools(pools) && |online| == |pools| && LedgerInv(Abs()) && phase.Checking? && toWrite == {}
      modifies this`jobs, this`rows, this`tasks, this`polls, this`toWrite, this`released, this`phase, pools
      ensures Pools(pools) && LedgerInv(Abs())
      ensures phase.Checking? && toWrite == {} && tasks == map[] && polls == map[]
      ensures Leads(old(Abs()), Abs())
    {
      ghost var start := Abs();
      AdvanceWaiting();
      AdvancedSettles(start);
      ghost var advanced := Abs();
      ghost var tried, applied := AdvanceQueued(online, launched);
      AdmittedSettles(start, advanced, online, launched, tried, applied);
      ghost var admitted := Abs();
      ghost var finished := AdvanceRunning(polled);
      PolledSettles(start, admitted, polled, finished);
    }

    // Cards

    method MarkCard(node: nat, index: u32, blocked: bool)
      requires Pools(pools) && node < |pools| && index < |pools[node].total.gpus|
      modifies pools
      ensures Pools(pools) && Abs() == CardMarked(old(Abs()), node, index, blocked)
    {
      var pool := pools[node];
      assert States(pools)[node] == pool.State();
      pool.Block(index, blocked);
    }

    method HoldCard(node: nat, index: u32, id: nat) returns (held: bool)
      requires Pools(pools) && node < |pools| && id !in qualifying
      modifies this`qualifying, pools
      ensures Pools(pools)
      ensures held == ReserveCard(old(States(pools))[node], index).Some?
      ensures Abs() == if held then Qualifying(old(Abs()), id, Placed(node, ReserveCard(old(States(pools))[node],
          index).value))
                       else old(Abs())
    {
      var pool := pools[node];
      assert States(pools)[node] == pool.State();
      var allocation := pool.ReserveOneCard(index);
      held := allocation.Some?;
      if held {
        qualifying := qualifying[id := Placed(node, allocation.value)];
      }
    }

    /** What a card's reading comes to: handed out or not, and held for a qualification if one is due and the card free. */
    method CheckCard(node: nat, index: u32, blocked: bool, due: bool, id: nat) returns (held: bool)
      requires Pools(pools) && node < |pools| && index < |pools[node].total.gpus| && id !in qualifying
      modifies this`qualifying, pools
      ensures Pools(pools)
      ensures var marked := CardMarked(old(Abs()), node, index, blocked);
              && held == (due && ReserveCard(marked.pools[node], index).Some?)
              && Abs() == if held then Qualifying(marked, id, Placed(node, ReserveCard(marked.pools[node],
                  index).value)) else marked
      ensures var was := old(States(pools))[node];
              && held == (due && was.total.gpus[index].vramMb > 0
                          && was.availableVramMb[index] == was.total.gpus[index].vramMb)
              && States(pools) == old(States(pools))[
                   node := was.(blocked := was.blocked[index := blocked],
                                availableVramMb := if held then was.availableVramMb[index := 0] else was.availableVramMb)]
              && qualifying == if held then old(qualifying)[
                    id := Placed(node, Allocation(0, 0, [GpuAllocation(index, was.total.gpus[index].vramMb)]))]
                               else old(qualifying)
    {
      CheckedCard(old(States(pools)), node, index, blocked);
      MarkCard(node, index, blocked);
      held := false;
      if due {
        held := HoldCard(node, index, id);
      }
    }

    method EndQualification(id: nat)
      requires Pools(pools) && id in qualifying && CanTakeBack(States(pools), qualifying[id])
      modifies this`qualifying, pools
      ensures Pools(pools) && Abs() == Qualified(old(Abs()), id)
    {
      ReleaseOn(qualifying[id]);
      qualifying := qualifying - {id};
    }

    /** Each qualification polled, with no lock held; `answer` is what comes of each. */
    method PollQualifications(answer: nat -> Result<Option<int>, ExecutorError>, late: nat -> bool) returns (ended: seq<nat>)
      ensures forall id :: id in ended <==> id in qualifying && QualificationOver(answer(id), late(id))
    {
      ended := [];
      var rest := qualifying.Keys;
      while rest != {}
        invariant rest <= qualifying.Keys
        invariant forall id :: id in ended <==> id in qualifying.Keys - rest && QualificationOver(answer(id), late(id))
      {
        var id :| id in rest;
        if QualificationOver(answer(id), late(id)) {
          ended := ended + [id];
        }
        rest := rest - {id};
      }
    }

    method ReleaseQualifications(ended: seq<nat>)
      requires Pools(pools) && LedgerInv(Abs()) && phase.Checking?
      modifies this`qualifying, pools
      ensures Pools(pools) && LedgerInv(Abs())
      ensures Abs() == AllQualified(old(Abs()), ended)
    {
      ghost var start := Abs();
      for i := 0 to |ended|
        invariant Pools(pools) && Abs() == AllQualified(start, ended[..i])
      {
        assert ended[..i + 1][..i] == ended[..i];
        if ended[i] in qualifying {
          QualifyingKeepsBooks(start, ended[..i]);
          HeldCanBeTakenBack(Abs(), Qualification(ended[i]));
          EndQualification(ended[i]);
        }
      }
      assert ended[..|ended|] == ended;
      QualifyingKeepsBooks(start, ended);
    }

    /** Qualifications that are over give their cards back, and no others. */
    method FinishQualifications(answer: nat -> Result<Option<int>, ExecutorError>, late: nat -> bool)
      returns (ended: seq<nat>)
      requires Pools(pools) && LedgerInv(Abs()) && phase.Checking?
      modifies this`qualifying, pools
      ensures Pools(pools) && LedgerInv(Abs()) && Abs() == AllQualified(old(Abs()), ended)
      ensures forall id :: id in qualifying <==>
                && id in old(qualifying)
                && ((answer(id) == Success(None) && !late(id)) || answer(id) == Failure(NodeUnreachable))
      ensures qualifying == map id | id in old(qualifying) && !QualificationOver(answer(id), late(id)) :: old(qualifying)[id]
    {
      ended := PollQualifications(answer, late);
      QualificationsLeft(Abs(), ended);
      ReleaseQualifications(ended);
    }

    // Clients

    /** The first job that fits no node, if there is one. */
    method FindMisfit(specs: seq<JobSpec>) returns (misfit: Option<JobId>)
      ensures misfit.None? <==> forall spec | spec in specs :: SomeNodeHasRoom(States(pools), spec.resources)
      ensures misfit.Some? ==> exists spec :: spec in specs && spec.id == misfit.value
    {
      for i := 0 to |specs|
        invariant forall j | 0 <= j < i :: SomeNodeHasRoom(States(pools), specs[j].resources)
      {
        FitsSomewhereIff(States(pools), specs[i].resources);
        if !FitsSomewhere(States(pools), specs[i].resources) {
          assert specs[i] in specs;
          return Some(specs[i].id);
        }
      }
      return None;
    }

    /** The checks before a workflow is taken in. */
    method Check(workflow: WorkflowSpec) returns (r: Result<(), SubmitError>)
      ensures r.Success? <==>
              Dag.Valid(workflow.jobs) && forall job | job in workflow.jobs :: SomeNodeHasRoom(States(pools), job.resources)
    {
      var valid := Dag.Validate(workflow);
      if valid.Failure? {
        return Failure(Invalid(valid.error));
      }
      var misfit := FindMisfit(workflow.jobs);
      if misfit.Some? {
        return Failure(FitsNoNode(misfit.value));
      }
      return Success(());
    }

    method CheckAll(workflow: WorkflowSpec) returns (r: Result<(), SubmitError>)
      ensures r.Success? <==> Acceptable(Abs(), workflow.jobs)
      ensures r.Success? <==>
              Dag.Valid(workflow.jobs) && forall job | job in workflow.jobs :: SomeNodeHasRoom(States(pools), job.resources)
    {
      r := Check(workflow);
      AcceptableIff(Abs(), States(pools), workflow.jobs);
    }

    method Insert(run: RunId, w: Workflow)
      modifies this`specs, this`rows, this`jobs
      ensures specs == old(specs)[run := w]
      ensures rows == old(rows) + PendingRows(Keys(run, w))
      ensures jobs == old(jobs) + FreshJobs(run, w)
    {
      specs := specs[run := w];
      StoreRows(Keys(run, w));
      jobs := jobs + FreshJobs(run, w);
    }

    method TakeIn(run: RunId, specs: seq<JobSpec>)
      requires Dag.UniqueIds(specs)
      modifies this`specs, this`rows, this`jobs
      ensures Abs() == Inserted(old(Abs()), run, ById(specs))
      ensures jobs == old(jobs) + NewJobs(run, specs)
      ensures rows == old(rows) + map k | k in NewJobs(run, specs) :: Row(Pending, None)
    {
      InsertedAre(run, specs);
      Insert(run, ById(specs));
    }

    /** Check a workflow and take it in; nothing changes unless it is valid and some node has room for each job. */
    method Submit(run: RunId, workflow: WorkflowSpec) returns (r: Result<(), SubmitError>)
      requires run !in specs && run !in submitting && forall k | k in rows :: k.run != run
      modifies this`specs, this`rows, this`jobs
      ensures r.Success? <==> Acceptable(old(Abs()), workflow.jobs)
      ensures r.Success? <==>
              && Dag.Valid(workflow.jobs)
              && forall job | job in workflow.jobs :: SomeNodeHasRoom(old(States(pools)), job.resources)
      ensures r.Success? ==>
              && Dag.UniqueIds(workflow.jobs) && jobs == old(jobs) + NewJobs(run, workflow.jobs)
              && rows == old(rows) + map k | k in NewJobs(run, workflow.jobs) :: Row(Pending, None)
      ensures r.Success? ==> Abs() == Inserted(old(Abs()), run, ById(workflow.jobs))
      ensures r.Failure? ==> Abs() == old(Abs())
    {
      r := CheckAll(workflow);
      if r.Success? {
        TakeIn(run, workflow.jobs);
      }
    }

    /** Every job's first row. */
    method StoreRows(keys: set<JobKey>)
      modifies this`rows
      ensures rows == old(rows) + PendingRows(keys)
    {
      var rest := keys;
      while rest != {}
        invariant rest <= keys && rows == old(rows) + PendingRows(keys - rest)
      {
        var k :| k in rest;
        rows := rows[k := Row(Pending, None)];
        rest := rest - {k};
      }
    }

    /** Mark a run's running jobs as being cancelled; they are stopped once the lock is dropped. */
    method Cancel(run: RunId) returns (known: bool, running: set<JobKey>)
      modifies this`jobs
      ensures known <==> exists k :: k in jobs && k.run == run
      ensures running == set k | k in old(jobs) && k.run == run && old(jobs)[k].state.Running?
      ensures Abs() == old(Abs()).(jobs := Cancelling(old(jobs), run))
      ensures jobs.Keys == old(jobs).Keys && forall k | k in jobs ::
                jobs[k] == if k in running then old(jobs)[k].(cancelling := true) else old(jobs)[k]
    {
      known, running := false, {};
      var rest := jobs.Keys;
      while rest != {}
        invariant rest <= jobs.Keys == old(jobs).Keys
        invariant known <==> exists k :: k in jobs.Keys - rest && k.run == run
        invariant running == set k | k in jobs.Keys - rest && k.run == run && old(jobs)[k].state.Running?
        invariant forall k | k in jobs ::
            jobs[k] == if k in running then old(jobs)[k].(cancelling := true) else old(jobs)[k]
      {
        var k :| k in rest;
        if k.run == run {
          known := true;
          if jobs[k].state.Running? {
            running := running + {k};
            jobs := jobs[k := jobs[k].(cancelling := true)];
          }
        }
        rest := rest - {k};
      }
    }

    // Starting again

    /** Rebuild one job from its spec and its row; a running one that was found again is booked where it runs. */
    method TakeBackJob(k: JobKey, found: bool)
      requires Pools(pools) && k.run in specs && k.job in specs[k.run]
      modifies this`jobs, this`rows, pools
      ensures Pools(pools)
      ensures jobs == old(jobs)[k := Restored(specs[k.run][k.job], old(rows), k, if found then {k} else {})]
      ensures rows == if k in old(rows) && old(rows)[k].state.Running? && !(found && old(rows)[k].held.Some?)
                      then old(rows)[k := Row(Interrupted, None)] else old(rows)
      ensures States(pools) == if k in old(rows) && old(rows)[k].state.Running? && found && old(rows)[k].held.Some?
                               then BookedAt(old(States(pools)), old(rows)[k].held.value) else old(States(pools))
    {
      var job := NewJob(specs[k.run][k.job]);
      if k in rows {
        job := job.(state := rows[k].state);
        if job.state.Running? {
          if found && rows[k].held.Some? {
            var execution := rows[k].held.value;
            if execution.node < |pools| {
              var pool := pools[execution.node];
              assert States(pools)[execution.node] == pool.State();
              pool.Book(execution.allocation);
            }
            job := job.(executions := [execution]);
          } else {
            job := job.(state := Interrupted);
            rows := rows[k := Row(Interrupted, None)];
          }
        }
      }
      jobs := jobs[k := job];
    }

    /** These jobs one after another. */
    method TakeBackJobs(keys: set<JobKey>, found: set<JobKey>) returns (ghost order: seq<JobKey>)
      requires Pools(pools) && jobs == map[] && found <= RunningRows(rows)
      requires forall k | k in keys :: k.run in specs && k.job in specs[k.run]
      modifies this`jobs, this`rows, pools
      ensures Pools(pools) && TakenBack(old(Abs()), found, keys, order, jobs, rows, States(pools))
    {
      order := [];
      ghost var c := Abs();
      var rest := keys;
      NothingTakenBack(c, found);
      while rest != {}
        invariant rest <= keys && Pools(pools)
        invariant TakenBack(c, found, keys - rest, order, jobs, rows, States(pools))
      {
        var k :| k in rest;
        OneMoreTakenBack(c, found, keys - rest, order, jobs, rows, States(pools), k);
        TakeBackJob(k, k in found);
        order := if k in found then order + [k] else order;
        assert keys - (rest - {k}) == keys - rest + {k};
        rest := rest - {k};
      }
      assert keys - rest == keys;
    }

    /** Take back every run that hadn't ended, onto pools that are all free. */
    method TakeBackRuns(found: set<JobKey>) returns (ghost order: seq<JobKey>)
      requires Pools(pools) && States(pools) == FreshPools(States(pools))
      requires found <= RunningRows(rows) && forall k | k in rows :: k.run in specs && k.job in specs[k.run]
      requires jobs == map[] && tasks == map[] && polls == map[] && qualifying == map[]
      requires phase.Checking? && toWrite == {} && released == map[] && submitting == {}
      modifies this`jobs, this`rows, pools
      ensures Pools(pools) && CanRestart(old(Abs()), found, order)
      ensures Abs() == Recovered(old(Abs()), found, order)
    {
      var keys := set k | k in AllKeys(specs) && k.run in Unfinished(rows);
      order := TakeBackJobs(keys, found);
      AllTakenBack(old(Abs()), found, keys, order, Abs());
    }
  }

  /** A job for each spec, waiting and with nothing else to its name. */
  ghost function NewJobs(run: RunId, specs: seq<JobSpec>): map<JobKey, JobInstance>
    requires Dag.UniqueIds(specs)
  {
    map job | job in specs :: JobKey(run, job.id) := JobInstance(job, Pending, [], false, None, [])
  }

  lemma InsertedAre(run: RunId, specs: seq<JobSpec>)
    requires Dag.UniqueIds(specs)
    ensures FreshJobs(run, ById(specs)) == NewJobs(run, specs)
    ensures PendingRows(Keys(run, ById(specs))) == map k | k in NewJobs(run, specs) :: Row(Pending, None)
  {
    var w := ById(specs);
    forall job | job in specs ensures JobKey(run, job.id) in FreshJobs(run, w) {
      assert job.id in w;
    }
    forall k | k in Keys(run, w) ensures k in NewJobs(run, specs) {
      assert k.job in Dag.Ids(specs);
    }
  }

  lemma CheckedCard(pools: seq<PoolState>, node: nat, index: u32, blocked: bool)
    requires node < |pools| && WellFormed(pools[node]) && index < |pools[node].total.gpus|
    ensures var was := pools[node];
            var marked := was.(blocked := was.blocked[index := blocked]);
            var free := was.total.gpus[index].vramMb > 0 && was.availableVramMb[index] == was.total.gpus[index].vramMb;
            && (ReserveCard(marked, index).Some? <==> free)
            && (free ==>
                  && ReserveCard(marked, index) ==
                     Some(Allocation(0, 0, [GpuAllocation(index, was.total.gpus[index].vramMb)]))
                  && Booked(marked, ReserveCard(marked, index).value) ==
                     marked.(availableVramMb := was.availableVramMb[index := 0]))
  {
    var was := pools[node];
    var marked := was.(blocked := was.blocked[index := blocked]);
    assert was.total.gpus[index].index == index;
    if ReserveCard(marked, index).Some? {
      var booked, taken := Booked(marked, OneCard(marked, index)), marked.(availableVramMb := was.availableVramMb[index := 0]);
      forall res: Resource ensures Available(booked, res) == Available(taken, res) {
        OneCardVram(was, index, res);
        assert OneCard(marked, index) == OneCard(was, index);
      }
      SamePool(booked, taken);
    }
  }

  lemma AllTried(c: Ctl, online: seq<bool>, order: seq<JobKey>)
    requires AllShaped(c.pools) && AllWellFormed(c.pools) && |online| == |c.pools| && forall k | k in c.jobs :: k in order
    ensures var d := ReservedAll(c, online, order);
            && (forall k, n, option | && k in d.jobs && d.jobs[k].state.Queued? && k !in d.tasks
                                      && 0 <= n < |d.pools| && online[n] && n !in d.jobs[k].rejected
                                      && option in GpuOptions(d.jobs[k].spec.resources) ::
                  Reserve(d.pools[n], option).None?)
            && (forall k | k in d.tasks && k !in c.tasks ::
                  && k in d.jobs && d.jobs[k].state.Queued? && d.tasks[k].result.None?
                  && d.tasks[k].placed.node < |d.pools| && online[d.tasks[k].placed.node]
                  && d.tasks[k].placed.node !in d.jobs[k].rejected)
            && (forall k | k in c.tasks :: k in d.tasks && d.tasks[k] == c.tasks[k])
  {
    var d := ReservedAll(c, online, order);
    forall k ensures (k in c.tasks ==> k in d.tasks && d.tasks[k] == c.tasks[k]) && d.jobs == c.jobs
    {
      NewReservations(c, online, order, k);
    }
    forall k | k in d.tasks && k !in c.tasks
      ensures && k in d.jobs && d.jobs[k].state.Queued? && d.tasks[k].result.None?
              && d.tasks[k].placed.node < |d.pools| && online[d.tasks[k].placed.node]
              && d.tasks[k].placed.node !in d.jobs[k].rejected
    {
      NewReservations(c, online, order, k);
    }
    forall k | k in c.jobs && c.jobs[k].state.Queued? && k !in d.tasks
      ensures forall n, option | && 0 <= n < |d.pools| && online[n] && n !in c.jobs[k].rejected
                                 && option in GpuOptions(c.jobs[k].spec.resources) :: Reserve(d.pools[n], option).None?
    {
      LeftOutFitsNowhere(c, online, order, k);
    }
  }

  // The sections of a tick keep the books, and each ends where the next can begin

  lemma LaunchedKeepsBooks(c: Ctl, online: seq<bool>, launched: JobKey -> LaunchResult, tried: seq<JobKey>)
    requires LedgerInv(c) && ReadyToReserve(c) && |online| == |c.pools| && c.tasks == map[]
    ensures var answered := LaunchesAnswered(ReservedAll(c, online, tried), launched);
            LedgerInv(answered) && ReadyToApply(answered)
  {
    LaunchedLeads(c, online, launched, tried);
    LeadsKeepsBooks(c, LaunchesAnswered(ReservedAll(c, online, tried), launched));
  }

  lemma PolledKeepsBooks(c: Ctl, polled: JobKey -> PollReply)
    requires LedgerInv(c) && c.phase.Snapshotting? && Flushed(c)
    ensures LedgerInv(PollsAnswered(Snapped(c), polled)) && ReadyToApplyPolls(PollsAnswered(Snapped(c), polled))
  {
    PolledLeads(c, polled);
    LeadsKeepsBooks(c, PollsAnswered(Snapped(c), polled));
  }

  lemma AdvancedSettles(c: Ctl)
    requires LedgerInv(c) && c.phase.Checking? && Flushed(c)
    ensures var d := TickAdvanced(c);
            Leads(c, d) && LedgerInv(d) && ReadyToReserve(d) && d.tasks == map[]
  {
    AdvancingIsSteps(c);
    LeadsKeepsBooks(c, TickAdvanced(c));
  }

  lemma AdmittedSettles(start: Ctl, c: Ctl, online: seq<bool>, launched: JobKey -> LaunchResult, tried: seq<JobKey>,
                        applied: seq<JobKey>)
    requires LedgerInv(start) && Leads(start, c) && ReadyToReserve(c) && |online| == |c.pools| && c.tasks == map[]
    requires LaunchesApplied(LaunchesAnswered(ReservedAll(c, online, tried), launched), applied).tasks == map[]
    ensures var d := TickAdmitted(c, online, launched, tried, applied);
            Leads(start, d) && LedgerInv(d) && d.phase.Snapshotting? && Flushed(d) && d.tasks == map[]
  {
    AdmittingIsSteps(c, online, launched, tried, applied);
    LeadsAcross(start, c, TickAdmitted(c, online, launched, tried, applied));
    LeadsKeepsBooks(start, TickAdmitted(c, online, launched, tried, applied));
  }

  lemma PolledSettles(start: Ctl, c: Ctl, polled: JobKey -> PollReply, applied: seq<JobKey>)
    requires LedgerInv(start) && Leads(start, c) && c.phase.Snapshotting? && Flushed(c)
    requires PollsApplied(PollsAnswered(Snapped(c), polled), applied).polls == map[]
    ensures var d := TickPolled(c, polled, applied);
            Leads(start, d) && LedgerInv(d) && d.phase.Checking? && Flushed(d) && d.tasks == map[] && d.polls == map[]
  {
    RunningIsSteps(c, polled, applied);
    LeadsAcross(start, c, TickPolled(c, polled, applied));
    LeadsKeepsBooks(start, TickPolled(c, polled, applied));
  }

  lemma OnePollFewer(c: Ctl, k: JobKey)
    requires k in c.polls
    ensures PollApplied(c, k).polls == c.polls - {k}
  {
  }

  lemma OneMorePoll(c: Ctl, order: seq<JobKey>, k: JobKey)
    requires k in PollsApplied(c, order).polls
    ensures PollsApplied(c, order + [k]) == PollApplied(PollsApplied(c, order), k)
  {
    assert (order + [k])[..|order|] == order;
  }

  datatype SubmitError = Invalid(error: Dag.DagError) | FitsNoNode(job: JobId)

  function FreshJobs(run: RunId, w: Workflow): map<JobKey, JobInstance> {
    map k | k in Keys(run, w) && k.job in w :: NewJob(w[k.job])
  }

  function PendingRows(keys: set<JobKey>): map<JobKey, Row> {
    map k | k in keys :: Row(Pending, None)
  }

  function Inserted(c: Ctl, run: RunId, w: Workflow): Ctl {
    c.(specs := c.specs[run := w], rows := c.rows + PendingRows(Keys(run, w)), jobs := c.jobs + FreshJobs(run, w))
  }

  function RestoredAmong(c: Ctl, found: set<JobKey>, keys: set<JobKey>): map<JobKey, JobInstance> {
    map k | k in keys && k.run in c.specs && k.job in c.specs[k.run] :: Restored(c.specs[k.run][k.job], c.rows, k, found)
  }

  function InterruptedAmong(rows: map<JobKey, Row>, found: set<JobKey>, keys: set<JobKey>): map<JobKey, Row> {
    map k | k in rows :: if k in keys && rows[k].state.Running? && k !in found then Row(Interrupted, None) else rows[k]
  }

  /** These keys' jobs are rebuilt, their rows dealt with, and what the found ones hold is booked. */
  ghost predicate TakenBack(c: Ctl, found: set<JobKey>, keys: set<JobKey>, order: seq<JobKey>, jobs: map<JobKey,
      JobInstance>,
                            rows: map<JobKey, Row>, pools: seq<PoolState>)
  {
    && jobs == RestoredAmong(c, found, keys) && rows == InterruptedAmong(c.rows, found, keys)
    && pools == BookedRows(c.pools, c.rows, order)
    && Dag.NoDuplicates(order) && Dag.SetOf(order) == found * keys
  }

  lemma NothingTakenBack(c: Ctl, found: set<JobKey>)
    requires c.jobs == map[]
    ensures forall keys: set<JobKey> | keys == {} :: TakenBack(c, found, keys, [], c.jobs, c.rows, c.pools)
  {
    assert Dag.SetOf<JobKey>([]) == {};
  }

  lemma RestoredOneMore(c: Ctl, found: set<JobKey>, keys: set<JobKey>, k: JobKey)
    requires k.run in c.specs && k.job in c.specs[k.run]
    ensures RestoredAmong(c, found, keys + {k}) ==
            RestoredAmong(c, found, keys)[k := Restored(c.specs[k.run][k.job], c.rows, k, if k in found then {k} else {})]
  {
  }

  lemma InterruptedOneMore(rows: map<JobKey, Row>, found: set<JobKey>, keys: set<JobKey>, k: JobKey)
    requires k !in keys && found <= RunningRows(rows)
    ensures var now := InterruptedAmong(rows, found, keys);
            && (k in now <==> k in rows) && (k in rows ==> now[k] == rows[k])
            && InterruptedAmong(rows, found, keys + {k}) ==
               if k in rows && rows[k].state.Running? && k !in found then now[k := Row(Interrupted, None)] else now
  {
  }

  lemma BookedOneMore(pools: seq<PoolState>, rows: map<JobKey, Row>, order: seq<JobKey>, k: JobKey)
    ensures BookedRows(pools, rows, order + [k]) ==
            var before := BookedRows(pools, rows, order);
            if k in rows && rows[k].held.Some? then BookedAt(before, rows[k].held.value) else before
  {
    assert (order + [k])[..|order|] == order;
  }

  lemma OneMoreTakenBack(c: Ctl, found: set<JobKey>, keys: set<JobKey>, order: seq<JobKey>, jobs: map<JobKey, JobInstance>,
                         rows: map<JobKey, Row>, pools: seq<PoolState>, k: JobKey)
    requires k !in keys && k.run in c.specs && k.job in c.specs[k.run] && found <= RunningRows(c.rows)
    requires TakenBack(c, found, keys, order, jobs, rows, pools)
    ensures (k in rows <==> k in c.rows) && (k in rows ==> rows[k] == c.rows[k])
    ensures TakenBack(c, found, keys + {k}, if k in found then order + [k] else order,
                      jobs[k := Restored(c.specs[k.run][k.job], rows, k, if k in found then {k} else {})],
                      if k in rows && rows[k].state.Running?
                          && k !in found then rows[k := Row(Interrupted, None)] else rows,
                      if k in found then BookedAt(pools, c.rows[k].held.value) else pools)
  {
    RestoredOneMore(c, found, keys, k);
    InterruptedOneMore(c.rows, found, keys, k);
    if k in found {
      BookedOneMore(c.pools, c.rows, order, k);
      Dag.Append(order, k);
      assert found * (keys + {k}) == found * keys + {k};
    } else {
      assert found * (keys + {k}) == found * keys;
    }
  }

  lemma RestoredAll(c: Ctl, found: set<JobKey>, keys: set<JobKey>)
    requires keys == set k | k in AllKeys(c.specs) && k.run in Unfinished(c.rows)
    ensures RestoredAmong(c, found, keys) == RestoredJobs(c, found)
  {
  }

  lemma InterruptedAll(rows: map<JobKey, Row>, found: set<JobKey>, keys: set<JobKey>)
    requires forall k | k in rows && rows[k].state.Running? :: k in keys
    ensures InterruptedAmong(rows, found, keys) == InterruptedRows(rows, found)
  {
  }

  /** Running rows are of unfinished runs. */
  lemma RunningAreAmong(c: Ctl, keys: set<JobKey>, k: JobKey)
    requires keys == set k | k in AllKeys(c.specs) && k.run in Unfinished(c.rows)
    requires k in c.rows && c.rows[k].state.Running? && k.run in c.specs && k.job in c.specs[k.run]
    ensures k in keys
  {
    assert k == JobKey(k.run, k.job);
  }

  lemma AllTakenBack(c: Ctl, found: set<JobKey>, keys: set<JobKey>, order: seq<JobKey>, d: Ctl)
    requires keys == set k | k in AllKeys(c.specs) && k.run in Unfinished(c.rows)
    requires found <= RunningRows(c.rows) && forall k | k in c.rows :: k.run in c.specs && k.job in c.specs[k.run]
    requires c.pools == FreshPools(c.pools)
    requires TakenBack(c, found, keys, order, d.jobs, d.rows, d.pools)
    requires d == Ctl(d.jobs, d.pools, map[], map[], map[], Checking, {}, map[], c.specs, d.rows, {})
    ensures CanRestart(c, found, order) && d == Recovered(c, found, order)
  {
    forall k | k in c.rows && c.rows[k].state.Running? ensures k in keys {
      RunningAreAmong(c, keys, k);
    }
    RestoredAll(c, found, keys);
    InterruptedAll(c.rows, found, keys);
    assert found * keys == found;
  }

  // Taking a run in is the submit steps one after another

  function Accepted(c: Ctl, run: RunId, w: Workflow, stored: set<JobKey>): Ctl {
    c.(specs := c.specs[run := w], submitting := c.submitting + {run}, rows := c.rows + PendingRows(stored))
  }

  lemma AcceptIsStep(c: Ctl, run: RunId, jobs: seq<JobSpec>)
    requires run !in c.specs && Acceptable(c, jobs)
    ensures Leads(c, Accepted(c, run, ById(jobs), {}))
  {
    LeadsNowhere(c);
    assert c.rows + PendingRows({}) == c.rows;
    LeadsOn(c, c, Client(SubmitAccept(run, jobs)), Accepted(c, run, ById(jobs), {}));
  }

  lemma {:induction false} StoringIsSteps(c: Ctl, run: RunId, w: Workflow, stored: set<JobKey>)
    requires Leads(c, Accepted(c, run, w, {})) && (forall k | k in c.rows :: k.run != run) && stored <= Keys(run, w)
    ensures Leads(c, Accepted(c, run, w, stored))
    decreases |stored|
  {
    if stored != {} {
      var k :| k in stored;
      StoringIsSteps(c, run, w, stored - {k});
      StoreOneMore(c, run, w, stored, k);
    }
  }

  lemma StoreOneMore(c: Ctl, run: RunId, w: Workflow, stored: set<JobKey>, k: JobKey)
    requires k in stored && stored <= Keys(run, w) && (forall j | j in c.rows :: j.run != run)
    requires Leads(c, Accepted(c, run, w, stored - {k}))
    ensures Leads(c, Accepted(c, run, w, stored))
  {
    var before := Accepted(c, run, w, stored - {k});
    assert c.rows + PendingRows(stored) == (c.rows + PendingRows(stored - {k}))[k := Row(Pending, None)];
    LeadsOn(c, before, Client(SubmitRow(k)), Accepted(c, run, w, stored));
  }

  lemma InsertingIsSteps(c: Ctl, run: RunId, jobs: seq<JobSpec>)
    requires run !in c.specs && run !in c.submitting && Acceptable(c, jobs) && forall k | k in c.rows :: k.run != run
    ensures Leads(c, Inserted(c, run, ById(jobs)))
  {
    var w := ById(jobs);
    AcceptIsStep(c, run, jobs);
    StoringIsSteps(c, run, w, Keys(run, w));
    InsertStored(c, run, w);
  }

  lemma InsertStored(c: Ctl, run: RunId, w: Workflow)
    requires run !in c.submitting && Leads(c, Accepted(c, run, w, Keys(run, w)))
    ensures Leads(c, Inserted(c, run, w))
  {
    var stored := Accepted(c, run, w, Keys(run, w));
    assert c.submitting + {run} - {run} == c.submitting;
    assert Submitted(stored, run) == c.jobs + FreshJobs(run, w);
    LeadsOn(c, stored, Client(SubmitInsert(run)), Inserted(c, run, w));
  }

  /** A card marked as handed out or not. */
  function CardMarked(c: Ctl, node: nat, index: nat, blocked: bool): Ctl
    requires node < |c.pools| && index < |c.pools[node].blocked|
  {
    c.(pools := c.pools[node := c.pools[node].(blocked := c.pools[node].blocked[index := blocked])])
  }

  lemma SingleExecution(pools: seq<PoolState>, executions: seq<Execution>)
    requires |executions| == 1
    ensures ReleasedAll(pools, executions) == ReleasedAt(pools, executions[0])
  {
    assert executions == [executions[0]];
    ReleasedSingle(pools, executions[0]);
  }

  lemma RunningJobHolds(c: Ctl, k: JobKey)
    requires Shapes(c) && Phases(c) && c.phase.ApplyingPolls? && k in c.polls
    ensures k in c.jobs && |c.jobs[k].executions| == 1 && ClaimOf(c, JobHolder(k)) == Some(c.jobs[k].executions[0])
  {
    assert c.tasks == map[];
  }

  lemma TakenSingle(pools: seq<PoolState>, placed: seq<Placed>)
    requires |placed| == 1
    ensures TakenAll(pools, placed) == Taken(pools, placed[0])
  {
    assert placed[..0] == [] && TakenAll(pools, placed[..0]) == pools;
  }
}

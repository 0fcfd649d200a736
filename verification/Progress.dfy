/** What runs come to: run states, no deadlock, a bound on all transitions, and ends that stay. */
module Progress {
  import opened Wrappers
  import opened Spec
  import opened Pool
  import opened Placement
  import opened Model
  import opened Controller
  import opened Ledger
  import opened Dependencies
  import opened Stored
  import opened Recovery
  import opened Sums
  import Dag

  // Run states

  function RunStates(jobs: map<JobKey, JobInstance>, run: RunId): set<JobState> {
    set k | k in jobs && k.run == run :: jobs[k].state
  }

  /** These job states in some order, as the code collects them from a HashMap or from rows. */
  ghost predicate Lists(states: seq<JobState>, all: set<JobState>) {
    (set i | 0 <= i < |states| :: states[i]) == all
  }

  lemma AnyIsWhenListed(states: seq<JobState>, all: set<JobState>, wanted: set<JobState>)
    requires Lists(states, all)
    ensures AnyIs(states, wanted) <==> all * wanted != {}
  {
    var listed := set i | 0 <= i < |states| :: states[i];
    if AnyIs(states, wanted) {
      var i :| 0 <= i < |states| && states[i] in wanted;
      assert states[i] in listed * wanted;
    }
    if state :| state in listed * wanted {
      var i :| 0 <= i < |states| && states[i] == state;
    }
  }

  /** A skipped job goes back to one that failed, was cancelled or was lost. */
  lemma {:induction false} SkipHasCause(c: Ctl, k: JobKey, order: seq<JobId>, i: nat) returns (cause: JobKey)
    requires WholeRuns(c) && AllInOrder(c.jobs) && k in c.jobs && c.jobs[k].state.Skipped?
    requires Dag.TopoOrder(DepGraph(c.specs[k.run]), order) && i < |order| && order[i] == k.job
    ensures cause in c.jobs && cause.run == k.run
    ensures c.jobs[cause].state.EndedBadly() && !c.jobs[cause].state.Skipped?
    decreases i
  {
    assert InOrder(c.jobs, k);
    var dep :| dep in c.jobs[k].spec.dependsOn && HasEndedBadly(c.jobs, JobKey(k.run, dep));
    cause := JobKey(k.run, dep);
    if c.jobs[cause].state.Skipped? {
      var g := DepGraph(c.specs[k.run]);
      assert Dag.ComesAfterDeps(g, order, i);
      assert dep in Dag.SetOf(g[order[i]]);
      var j :| 0 <= j < i && order[..i][j] == dep;
      cause := SkipHasCause(c, cause, order, j);
    }
  }

  /** The run's state depends only on which job states occur. */
  lemma DerivedFromStates(states: seq<JobState>, all: set<JobState>)
    requires Lists(states, all)
    ensures DeriveRunState(states) == RunFailed <==> all * {Failed, TimedOut, Interrupted} != {}
    ensures DeriveRunState(states) == RunCancelled <==>
              all * {Failed, TimedOut, Interrupted} == {} && JobState.Cancelled in all
    ensures DeriveRunState(states) == RunSucceeded <==> all != {} && all <= {JobState.Succeeded, Skipped}
  {
    var listed := set i | 0 <= i < |states| :: states[i];
    AnyIsWhenListed(states, all, {Failed, TimedOut, Interrupted});
    AnyIsWhenListed(states, all, {JobState.Cancelled});
    AnyIsWhenListed(states, all, {JobState.Running, JobState.Queued});
    assert JobState.Cancelled in listed <==> listed * {JobState.Cancelled} != {};
    assert states != [] ==> states[0] in listed;
    assert forall i | 0 <= i < |states| :: states[i] in listed;
    if listed <= {JobState.Succeeded, Skipped} {
      assert listed * {Failed, TimedOut, Interrupted} == {} && listed * {JobState.Cancelled} == {};
      assert listed * {JobState.Running, JobState.Queued} == {};
    }
  }

  /** A run is Running while a job of it runs or waits for resources and none ended badly, and Pending while its jobs only
      wait for one another. */
  lemma OpenFromStates(states: seq<JobState>, all: set<JobState>)
    requires Lists(states, all)
    ensures DeriveRunState(states) == RunRunning <==>
              all * {Failed, TimedOut, Interrupted, JobState.Cancelled} == {} && all * {JobState.Running, Queued} != {}
    ensures DeriveRunState(states) == RunPending <==>
              all == {} || (JobState.Pending in all && all <= {JobState.Pending, JobState.Succeeded, Skipped})
  {
    DerivedFromStates(states, all);
    AnyIsWhenListed(states, all, {JobState.Running, JobState.Queued});
    assert all * {Failed, TimedOut, Interrupted, JobState.Cancelled} ==
           all * {Failed, TimedOut, Interrupted} + all * {JobState.Cancelled};
    assert JobState.Cancelled in all <==> JobState.Cancelled in all * {JobState.Cancelled};
    if all * {Failed, TimedOut, Interrupted, JobState.Cancelled, JobState.Running, JobState.Queued} == {} {
      forall state | state in all ensures state in {JobState.Pending, JobState.Succeeded, Skipped} {
        var others := {Failed, TimedOut, Interrupted, JobState.Cancelled, JobState.Running, JobState.Queued};
        assert state in others ==> state in all * others;
        match state {
          case Pending => case Queued => case Running => case Succeeded => case Failed => case Skipped =>
          case Cancelled => case TimedOut => case Interrupted =>
        }
      }
    }
    if all <= {JobState.Pending, JobState.Succeeded, Skipped} {
      assert all * {Failed, TimedOut, Interrupted} == {} && all * {JobState.Running, JobState.Queued} == {};
    }
  }

  /** A skip never stands alone: a job of the same run failed, was cancelled or was lost. */
  lemma SkipShows(c: Ctl, k: JobKey)
    requires WholeRuns(c) && AllInOrder(c.jobs) && k in c.jobs && c.jobs[k].state.Skipped?
    requires GoodWorkflow(c.specs[k.run])
    ensures !(RunStates(c.jobs, k.run) <= {JobState.Succeeded, Skipped})
  {
    var order :| Dag.TopoOrder(DepGraph(c.specs[k.run]), order);
    assert k.job in Dag.SetOf(order);
    var i :| 0 <= i < |order| && order[i] == k.job;
    var cause := SkipHasCause(c, k, order, i);
    assert c.jobs[cause].state in RunStates(c.jobs, k.run);
  }

  /** A run counts as Succeeded exactly when every one of its jobs did: no skip hides in it. */
  lemma SucceededMeansAll(c: Ctl, run: RunId, states: seq<JobState>)
    requires WholeRuns(c) && AllInOrder(c.jobs) && (run in c.specs ==> GoodWorkflow(c.specs[run]))
    requires Lists(states, RunStates(c.jobs, run)) && RunStates(c.jobs, run) != {}
    ensures DeriveRunState(states) == RunSucceeded <==> forall k | k in c.jobs && k.run == run :: c.jobs[k].state.Succeeded?
  {
    DerivedFromStates(states, RunStates(c.jobs, run));
    if DeriveRunState(states) == RunSucceeded {
      forall k | k in c.jobs && k.run == run ensures c.jobs[k].state.Succeeded? {
        assert c.jobs[k].state in RunStates(c.jobs, run);
        if c.jobs[k].state.Skipped? {
          SkipShows(c, k);
        }
      }
    }
  }

  lemma SameRunJobs(c: Ctl, d: Ctl, run: RunId)
    requires WholeRuns(c) && WholeRuns(d) && RunStates(c.jobs, run) != {} && c.jobs.Keys <= d.jobs.Keys
    requires forall r | r in c.specs :: r in d.specs && d.specs[r] == c.specs[r]
    ensures forall k | k in d.jobs && k.run == run :: k in c.jobs
  {
    var some :| some in c.jobs && some.run == run;
    forall k | k in d.jobs && k.run == run ensures k in c.jobs {
      assert JobKey(some.run, k.job) in c.jobs;
      assert k == JobKey(some.run, k.job);
    }
  }

  lemma StepKeepsSpecs(c: Ctl, step: Step, d: Ctl)
    requires Shapes(c) && Next(c, step, d) && !step.Restart?
    ensures forall run | run in c.specs :: run in d.specs && d.specs[run] == c.specs[run]
  {
    if !(step.Client? && step.client.SubmitAccept?) {
      StepSpecs(c, step, d);
    }
  }

  /** Jobs stay, those that ended as they ended, and so do specs. */
  ghost predicate Later(c: Ctl, d: Ctl) {
    && (forall k | k in c.jobs :: k in d.jobs && (c.jobs[k].state.IsTerminal() ==> d.jobs[k].state == c.jobs[k].state))
    && forall run | run in c.specs :: run in d.specs && d.specs[run] == c.specs[run]
  }

  lemma StepIsLater(c: Ctl, step: Step, d: Ctl)
    requires LedgerInv(c) && DepInv(c) && Next(c, step, d) && !step.Restart?
    ensures Later(c, d)
  {
    StepMoves(c, step, d);
    StepKeepsSpecs(c, step, d);
    forall k | k in c.jobs && c.jobs[k].state.IsTerminal() ensures d.jobs[k].state == c.jobs[k].state {
      EndedStays(c.jobs, d.jobs, k);
    }
  }

  lemma AllSucceededStays(c: Ctl, d: Ctl, run: RunId)
    requires WholeRuns(c) && WholeRuns(d) && Later(c, d) && RunStates(c.jobs, run) != {}
    requires forall k | k in c.jobs && k.run == run :: c.jobs[k].state.Succeeded?
    ensures RunStates(d.jobs, run) == {JobState.Succeeded}
  {
    SameRunJobs(c, d, run);
    var some :| some in c.jobs && some.run == run;
    assert d.jobs[some].state == JobState.Succeeded;
  }

  lemma EndedStatesStay(c: Ctl, d: Ctl, run: RunId)
    requires Later(c, d)
    ensures forall state | state in RunStates(c.jobs, run) && state.IsTerminal() :: state in RunStates(d.jobs, run)
  {
  }

  lemma BadEndsStay(all: set<JobState>, now: set<JobState>, before: seq<JobState>, after: seq<JobState>)
    requires Lists(before, all) && Lists(after, now)
    requires forall state | state in all && state.IsTerminal() :: state in now
    ensures DeriveRunState(before) == RunFailed ==> DeriveRunState(after) == RunFailed
    ensures DeriveRunState(before) == RunCancelled ==> DeriveRunState(after) in {RunCancelled, RunFailed}
  {
    DerivedFromStates(before, all);
    DerivedFromStates(after, now);
    if state :| state in all * {Failed, TimedOut, Interrupted} {
      assert state in now;
    }
  }

  /** Failed and Succeeded are final, and Cancelled can only become Failed. */
  lemma EndsStay(c: Ctl, d: Ctl, run: RunId, before: seq<JobState>, after: seq<JobState>)
    requires WholeRuns(c) && WholeRuns(d) && AllInOrder(c.jobs) && Later(c, d) && RunStates(c.jobs, run) != {}
    requires run in c.specs ==> GoodWorkflow(c.specs[run])
    requires Lists(before, RunStates(c.jobs, run)) && Lists(after, RunStates(d.jobs, run))
    ensures DeriveRunState(before) == RunFailed ==> DeriveRunState(after) == RunFailed
    ensures DeriveRunState(before) == RunSucceeded ==> DeriveRunState(after) == RunSucceeded
    ensures DeriveRunState(before) == RunCancelled ==> DeriveRunState(after) in {RunCancelled, RunFailed}
  {
    EndedStatesStay(c, d, run);
    BadEndsStay(RunStates(c.jobs, run), RunStates(d.jobs, run), before, after);
    if DeriveRunState(before) == RunSucceeded {
      SucceededMeansAll(c, run, before);
      AllSucceededStays(c, d, run);
      DerivedFromStates(after, RunStates(d.jobs, run));
    }
  }

  // What launches and polls decide

  /** A launch that didn't take: the job fails exactly on an error or when turned down by the last node that could take it,
      and otherwise stays Queued, as it was unless a node turned it down. */
  lemma NotStartedDecides(pools: seq<PoolState>, was: JobInstance, task: AdmitTask)
    requires was.state.Queued? && was.executions == [] && task.result.Some? && !task.result.value.Launched?
    ensures var job, result := NotStarted(pools, was, task), task.result.value;
            var now := if job.Some? then job.value else was;
            && (now.state.Failed? <==> result.LaunchFailed? || (result.TurnedDown? && !CouldGoElsewhere(pools, now)))
            && (now.state.Failed? || now.state.Queued?)
            && (result.TurnedDown? <==> now.rejected == was.rejected + [task.placed.node])
            && (result.Unreachable? <==> job.None?)
            && now.executions == []
  {
    if task.result.value.TurnedDown? {
      var turnedDown := was.(rejected := was.rejected + [task.placed.node]);
      SameNodesLeft(pools, turnedDown, NotStarted(pools, was, task).value);
    }
  }

  lemma GivenBackDecides(c: Ctl, k: JobKey, job: Option<JobInstance>)
    requires k in c.tasks && k in c.jobs
    ensures var d := GivenBack(c, k, job);
            d.jobs[k] == (if job.Some? then job.value else c.jobs[k]) && d.pools == ReleasedAt(c.pools, c.tasks[k].placed)
  {
  }

  /** A queued job's launch: it runs exactly if the launch took, and keeps what was reserved only then. */
  lemma LaunchDecides(c: Ctl, k: JobKey)
    requires Shapes(c) && k in c.tasks && c.tasks[k].result.Some?
    ensures var now, d, result := LaunchApplied(c, k).jobs[k], LaunchApplied(c, k), c.tasks[k].result.value;
            && (now.state.Running? <==> result.Launched?)
            && (result.Launched? ==> now.executions == [c.tasks[k].placed] && d.pools == c.pools)
            && (!result.Launched? ==> now.executions == [] && d.pools == ReleasedAt(c.pools, c.tasks[k].placed))
            && (now.state.Failed? <==> result.LaunchFailed? || (result.TurnedDown? && !CouldGoElsewhere(c.pools, now)))
            && (result.Unreachable? ==> now == c.jobs[k])
  {
    if !c.tasks[k].result.value.Launched? {
      NotStartedDecides(c.pools, c.jobs[k], c.tasks[k]);
      GivenBackDecides(c, k, NotStarted(c.pools, c.jobs[k], c.tasks[k]));
    }
  }

  lemma SameNodesLeft(pools: seq<PoolState>, a: JobInstance, b: JobInstance)
    requires a.spec == b.spec && a.rejected == b.rejected
    ensures CouldGoElsewhere(pools, a) <==> CouldGoElsewhere(pools, b)
  {
    if CouldGoElsewhere(pools, a) {
      var node :| 0 <= node < |pools| && !RejectedBy(a, node) && CouldGoTo(pools, a.spec.resources, node);
      assert !RejectedBy(b, node) && CouldGoTo(pools, b.spec.resources, node);
    }
    if CouldGoElsewhere(pools, b) {
      var node :| 0 <= node < |pools| && !RejectedBy(b, node) && CouldGoTo(pools, b.spec.resources, node);
      assert !RejectedBy(a, node) && CouldGoTo(pools, a.spec.resources, node);
    }
  }

  /** A running job's poll: without an exit or an error nothing is touched; an exit counts as Cancelled if a cancel came in
      before the poll, as Succeeded for code 0, and otherwise as Failed; and what the job held goes back. */
  lemma PollDecides(c: Ctl, k: JobKey)
    requires Shapes(c) && k in c.polls && c.polls[k].reply.Some?
    ensures var was, now, d, entry := c.jobs[k], PollApplied(c, k).jobs[k], PollApplied(c, k), c.polls[k];
            var reply := entry.reply.value;
            && (reply.NoAnswer? || reply.StillRunning? ==> d.jobs == c.jobs && d.pools == c.pools && d.toWrite == c.toWrite)
            && (now.state.Running? <==> reply.NoAnswer? || reply.StillRunning?)
            && (now.state.Cancelled? <==> reply.Exited? && entry.cancelling)
            && (now.state.Succeeded? <==> reply.Exited? && !entry.cancelling && reply.code == 0)
            && (now.state.Failed? <==> reply.PollFailed? || (reply.Exited? && !entry.cancelling && reply.code != 0))
            && (!now.state.Running? ==> now.executions == [] && d.pools == ReleasedAt(c.pools, was.executions[0]))
            && (reply.Exited? ==> now.exitCode == Some(reply.code))
  {
    var executions := c.jobs[k].executions;
    assert |executions| == 1 && executions == [executions[0]];
    ReleasedSingle(c.pools, executions[0]);
  }

  /** A cancel has come in for the job, and any poll under way knows. */
  predicate CancelKnown(c: Ctl, k: JobKey) {
    k in c.jobs && c.jobs[k].cancelling && (k in c.polls ==> c.polls[k].cancelling)
  }

  lemma ClientKeepsCancel(c: Ctl, step: ClientStep, d: Ctl, k: JobKey)
    requires Shapes(c) && ClientNext(c, step, d) && CancelKnown(c, k)
    ensures CancelKnown(d, k)
  {
    if step.SubmitInsert? {
      SubmittedJobs(c, step.run);
    }
  }

  lemma LaunchKeepsCancel(c: Ctl, j: JobKey, k: JobKey)
    requires j in c.tasks && j in c.jobs && CancelKnown(c, k)
    ensures CancelKnown(LaunchApplied(c, j), k)
  {
  }

  lemma AdmitKeepsCancel(c: Ctl, step: AdmitStep, d: Ctl, k: JobKey)
    requires Shapes(c) && AdmitNext(c, step, d) && CancelKnown(c, k)
    ensures CancelKnown(d, k)
  {
    if step.ApplyLaunch? {
      LaunchKeepsCancel(c, step.key, k);
    }
  }

  lemma PollKeepsCancel(c: Ctl, step: PollStep, d: Ctl, k: JobKey)
    requires Shapes(c) && PollNext(c, step, d) && CancelKnown(c, k)
    ensures CancelKnown(d, k)
  {
    match step
    case ApplyPoll(j) =>
      if Over(c.polls[j].reply.value) {
        FinishKeepsCancel(c, j, Ended(c.jobs[j], c.polls[j]), k);
      }
    case _ =>
  }

  lemma FinishKeepsCancel(c: Ctl, j: JobKey, job: JobInstance, k: JobKey)
    requires j in c.jobs && job.cancelling == c.jobs[j].cancelling && CancelKnown(c, k)
    ensures CancelKnown(Finished(c, j, job), k)
  {
  }

  /** A cancel is not forgotten before a restart: from the first snapshot after it on, an exit ends the job as Cancelled. */
  lemma CancelStaysKnown(c: Ctl, step: Step, d: Ctl, k: JobKey)
    requires Shapes(c) && Next(c, step, d) && !step.Restart? && CancelKnown(c, k)
    ensures CancelKnown(d, k)
  {
    match step
    case Client(s) => ClientKeepsCancel(c, s, d, k);
    case Admit(s) => AdmitKeepsCancel(c, s, d, k);
    case Poll(s) => PollKeepsCancel(c, s, d, k);
    case Cards(s) => CardFrame(c, s, d);
    case Flush(_) =>
  }

  // Stored ends

  lemma ClientKeepsRows(c: Ctl, step: ClientStep, d: Ctl, k: JobKey)
    requires ClientNext(c, step, d) && k in c.rows
    ensures k in d.rows && d.rows[k] == c.rows[k]
  {
  }

  lemma WritingKeepsEnds(c: Ctl, j: JobKey, k: JobKey)
    requires j in c.toWrite && (j in c.jobs ==> RowFollows(c, j)) && k in c.rows && c.rows[k].state.IsTerminal()
    ensures k in Written(c, j).rows && Written(c, j).rows[k] == c.rows[k]
  {
  }

  lemma RestartKeepsEnds(c: Ctl, found: set<JobKey>, k: JobKey)
    requires k in c.rows && c.rows[k].state.IsTerminal()
    ensures k in InterruptedRows(c.rows, found) && InterruptedRows(c.rows, found)[k] == c.rows[k]
  {
  }

  /** A stored end is final, crashes and restarts included. */
  lemma StoredEndsStay(c: Ctl, step: Step, d: Ctl, k: JobKey)
    requires Shapes(c) && (forall j | j in c.jobs :: RowFollows(c, j))
    requires Next(c, step, d) && k in c.rows && c.rows[k].state.IsTerminal()
    ensures k in d.rows && d.rows[k] == c.rows[k]
  {
    match step
    case Client(s) => ClientKeepsRows(c, s, d, k);
    case Admit(s) => AdmitFrame(c, s, d);
    case Poll(s) => PollFrame(c, s, d);
    case Cards(s) => CardFrame(c, s, d);
    case Flush(j) => WritingKeepsEnds(c, j, k);
    case Restart(found, _) => RestartKeepsEnds(c, found, k);
  }

  // No deadlock

  /** The earliest Pending job in dependency order can move: its dependencies have all ended. */
  lemma {:induction false} FirstPendingMoves(c: Ctl, run: RunId, order: seq<JobId>, i: nat) returns (k: JobKey)
    requires WholeRuns(c) && run in c.specs && (forall id | id in c.specs[run] :: JobKey(run, id) in c.jobs)
    requires forall id | id in c.specs[run] :: forall dep | dep in c.specs[run][id].dependsOn :: dep in c.specs[run]
    requires Dag.TopoOrder(DepGraph(c.specs[run]), order) && i < |order|
    requires order[i] in c.specs[run] && c.jobs[JobKey(run, order[i])].state.Pending?
    requires forall j | j in c.jobs && j.run == run :: !c.jobs[j].state.Queued? && !c.jobs[j].state.Running?
    ensures k.run == run && (k in ToQueue(c.jobs) || k in ToSkip(c.jobs))
    decreases i
  {
    k := JobKey(run, order[i]);
    var g := DepGraph(c.specs[run]);
    assert order[i] in Dag.SetOf(order);
    var deps := c.jobs[k].spec.dependsOn;
    if dep :| dep in deps && c.jobs[JobKey(run, dep)].state.Pending? {
      assert Dag.ComesAfterDeps(g, order, i);
      assert dep in Dag.SetOf(g[order[i]]);
      var j :| 0 <= j < i && order[..i][j] == dep;
      k := FirstPendingMoves(c, run, order, j);
    } else if SomeDepBad(c.jobs, k) {
    } else {
      forall dep | dep in deps ensures HasSucceeded(c.jobs, JobKey(run, dep)) {
        assert !HasEndedBadly(c.jobs, JobKey(run, dep));
      }
    }
  }

  lemma OrderHasPending(c: Ctl, pending: JobKey, w: Workflow) returns (k: JobKey)
    requires WholeRuns(c) && pending in c.jobs && c.jobs[pending].state.Pending?
    requires w == c.specs[pending.run] && GoodWorkflow(w)
    requires forall j | j in c.jobs && j.run == pending.run :: !c.jobs[j].state.Queued? && !c.jobs[j].state.Running?
    ensures k.run == pending.run && (k in ToQueue(c.jobs) || k in ToSkip(c.jobs))
  {
    var order :| Dag.TopoOrder(DepGraph(w), order);
    assert pending.job in Dag.SetOf(order);
    var i :| 0 <= i < |order| && order[i] == pending.job;
    assert JobKey(pending.run, order[i]) == pending;
    k := FirstPendingMoves(c, pending.run, order, i);
  }

  /** A run with Pending jobs and none Queued or Running always has one the next tick queues or skips. */
  lemma NoDeadlock(c: Ctl, pending: JobKey) returns (k: JobKey)
    requires GoodSpecs(c) && WholeRuns(c) && pending in c.jobs && c.jobs[pending].state.Pending?
    requires forall j | j in c.jobs && j.run == pending.run :: !c.jobs[j].state.Queued? && !c.jobs[j].state.Running?
    ensures k.run == pending.run && (k in ToQueue(c.jobs) || k in ToSkip(c.jobs))
  {
    k := OrderHasPending(c, pending, c.specs[pending.run]);
  }

  /** With every node online, idle and unblocked, any queued job can be placed. */
  lemma IdleNodesTakeAny(c: Ctl, k: JobKey) returns (placed: Placed)
    requires GoodPools(c.pools) && Hopeful(c) && k in c.jobs && c.jobs[k].state.Queued? && k !in c.tasks
    requires forall n: nat, res | n < |c.pools| :: Available(c.pools[n], res) == Capacity(c.pools[n].total, res)
    requires forall n, i | 0 <= n < |c.pools| && 0 <= i < |c.pools[n].blocked| :: !c.pools[n].blocked[i]
    ensures CanReserve(c, k, seq(|c.pools|, n => true), placed)
  {
    var online := seq(|c.pools|, n => true);
    var usable := Usable(online, c.jobs[k]);
    var resources := c.jobs[k].spec.resources;
    assert CouldGoElsewhere(c.pools, c.jobs[k]);
    var node :| 0 <= node < |c.pools| && !RejectedBy(c.jobs[k], node) && CouldGoTo(c.pools, resources, node);
    var option :| option in GpuOptions(resources) && CouldFit(c.pools[node].total, option);
    IdleFitsWhatCouldFit(c.pools[node], option);
    assert FitsOn(c.pools, usable, option, node);
    PlaceMemberMeets(c.pools, usable, resources);
    placed := PlaceMember(c.pools, usable, resources).value;
    PlaceSingle(c.pools, usable, resources);
  }

  // A bound on all transitions

  function OpenNodes(nodes: nat, job: JobInstance): set<nat> {
    set n: nat | n < nodes && n !in job.rejected
  }

  /** How far a job still is from its end. */
  function Rank(nodes: nat, job: JobInstance): nat {
    match job.state
    case Pending => nodes + 3
    case Queued => 2 + |OpenNodes(nodes, job)|
    case Running => 1
    case _ => 0
  }

  function Below(nodes: nat): (s: set<nat>)
    ensures |s| == nodes && forall n | n in s :: n < nodes
  {
    if nodes == 0 then {} else Below(nodes - 1) + {nodes - 1}
  }

  lemma {:induction false} BelowHasAll(nodes: nat, n: nat)
    requires n < nodes
    ensures n in Below(nodes)
  {
    if n < nodes - 1 {
      BelowHasAll(nodes - 1, n);
    }
  }

  lemma OpenNodesBound(nodes: nat, job: JobInstance)
    ensures |OpenNodes(nodes, job)| <= nodes
  {
    forall n | n in OpenNodes(nodes, job) ensures n in Below(nodes) {
      BelowHasAll(nodes, n);
    }
    SubsetSize(OpenNodes(nodes, job), Below(nodes));
  }

  /** The job is in another state, or one more node turned it down while queued. */
  predicate Nearer(c: Ctl, was: JobInstance, now: JobInstance) {
    || now.state != was.state
    || (was.state.Queued? && OneMore(was.rejected, now.rejected) && now.rejected[|was.rejected|] < |c.pools|)
  }

  /** A job about to be written came nearer to its end. */
  ghost predicate Progressed(c: Ctl, d: Ctl) {
    forall k | k in d.toWrite && k !in c.toWrite :: k in c.jobs && k in d.jobs && Nearer(c, c.jobs[k], d.jobs[k])
  }

  lemma NotStartedProgress(c: Ctl, k: JobKey)
    requires LedgerInv(c) && FreshNodes(c) && k in c.tasks
    ensures var job := NotStarted(c.pools, c.jobs[k], c.tasks[k]);
            job.Some? ==> Nearer(c, c.jobs[k], job.value)
  {
    assert GoodClaim(c.pools, ClaimOf(c, JobHolder(k)).value);
  }

  lemma GivenBackProgress(c: Ctl, k: JobKey, job: Option<JobInstance>)
    requires k in c.tasks && k in c.jobs && c.jobs[k].state.Queued?
    requires job.Some? ==> Nearer(c, c.jobs[k], job.value)
    ensures Progressed(c, GivenBack(c, k, job))
  {
  }

  lemma AdmitProgress(c: Ctl, step: AdmitStep, d: Ctl)
    requires LedgerInv(c) && FreshNodes(c) && AdmitNext(c, step, d)
    ensures Progressed(c, d)
  {
    match step
    case ApplyLaunch(k) =>
      if c.tasks[k].result != Some(Launched) {
        NotStartedProgress(c, k);
        GivenBackProgress(c, k, NotStarted(c.pools, c.jobs[k], c.tasks[k]));
      }
    case _ =>
  }

  lemma FinishedProgress(c: Ctl, k: JobKey, job: JobInstance)
    requires k in c.jobs && job.state != c.jobs[k].state
    ensures Progressed(c, Finished(c, k, job))
  {
  }

  lemma PollProgress(c: Ctl, step: PollStep, d: Ctl)
    requires Shapes(c) && PollNext(c, step, d)
    ensures Progressed(c, d)
  {
    match step
    case ApplyPoll(k) =>
      if Over(c.polls[k].reply.value) {
        FinishedProgress(c, k, Ended(c.jobs[k], c.polls[k]));
      }
    case _ =>
  }

  lemma StepProgress(c: Ctl, step: Step, d: Ctl)
    requires LedgerInv(c) && FreshNodes(c) && Next(c, step, d) && !step.Restart?
    ensures Progressed(c, d)
  {
    match step
    case Client(s) => ClientFrame(c, s, d);
    case Admit(s) => AdmitProgress(c, s, d);
    case Poll(s) => PollProgress(c, s, d);
    case Cards(s) => CardFrame(c, s, d);
    case Flush(k) =>
  }

  /** The job made a transition: it is in another state, or one more node turned it down. */
  predicate Changed(c: Ctl, d: Ctl, k: JobKey) {
    k in c.jobs && k in d.jobs && (d.jobs[k].state != c.jobs[k].state || d.jobs[k].rejected != c.jobs[k].rejected)
  }

  /** Transitions go to the store: a job that made one is listed for writing, and was not listed before. */
  ghost predicate ListsChanges(c: Ctl, d: Ctl) {
    forall k | Changed(c, d, k) :: k in d.toWrite && k !in c.toWrite
  }

  lemma ClientLists(c: Ctl, step: ClientStep, d: Ctl)
    requires Shapes(c) && ClientNext(c, step, d)
    ensures ListsChanges(c, d)
  {
    if step.SubmitInsert? {
      SubmittedJobs(c, step.run);
    }
  }

  lemma StateLists(c: Ctl, keys: set<JobKey>, state: JobState, d: Ctl)
    requires Flushed(c) && d.jobs == WithState(c.jobs, keys, state) && d.toWrite == keys
    ensures ListsChanges(c, d)
  {
  }

  lemma StartedLists(c: Ctl, j: JobKey)
    requires j in c.tasks && j in c.jobs && j !in c.toWrite
    ensures ListsChanges(c, Started(c, j))
  {
  }

  lemma GivenBackLists(c: Ctl, j: JobKey, job: Option<JobInstance>)
    requires j in c.tasks && j in c.jobs && j !in c.toWrite
    ensures ListsChanges(c, GivenBack(c, j, job))
  {
  }

  lemma AdmitLists(c: Ctl, step: AdmitStep, d: Ctl)
    requires Shapes(c) && InFlightStored(c) && AdmitNext(c, step, d)
    ensures ListsChanges(c, d)
  {
    match step
    case AdvancePending => StateLists(c, ToQueue(c.jobs), Queued, d);
    case CascadeSkipped => StateLists(c, ToSkip(c.jobs), Skipped, d);
    case ApplyLaunch(j) =>
      if c.tasks[j].result == Some(Launched) {
        StartedLists(c, j);
      } else {
        GivenBackLists(c, j, NotStarted(c.pools, c.jobs[j], c.tasks[j]));
      }
    case _ =>
  }

  lemma FinishedLists(c: Ctl, j: JobKey, job: JobInstance)
    requires j in c.jobs && j !in c.toWrite
    ensures ListsChanges(c, Finished(c, j, job))
  {
  }

  lemma PollLists(c: Ctl, step: PollStep, d: Ctl)
    requires Shapes(c) && InFlightStored(c) && PollNext(c, step, d)
    ensures ListsChanges(c, d)
  {
    match step
    case ApplyPoll(j) =>
      if Over(c.polls[j].reply.value) {
        FinishedLists(c, j, Ended(c.jobs[j], c.polls[j]));
      }
    case _ =>
  }

  lemma StepLists(c: Ctl, step: Step, d: Ctl)
    requires Shapes(c) && InFlightStored(c) && Next(c, step, d) && !step.Restart?
    ensures ListsChanges(c, d)
  {
    match step
    case Client(s) => ClientLists(c, s, d);
    case Admit(s) => AdmitLists(c, s, d);
    case Poll(s) => PollLists(c, s, d);
    case Cards(s) => CardFrame(c, s, d);
    case Flush(_) =>
  }

  /** A job makes a transition exactly when it is newly listed for writing; so once listed, it makes no other before its
      row is written. */
  lemma TransitionsAreListed(c: Ctl, step: Step, d: Ctl, k: JobKey)
    requires LedgerInv(c) && FreshNodes(c) && InFlightStored(c) && Next(c, step, d) && !step.Restart? && k in c.jobs
    ensures Changed(c, d, k) <==> k in d.toWrite && k !in c.toWrite
    ensures k in c.toWrite ==> k in d.jobs && d.jobs[k].state == c.jobs[k].state && d.jobs[k].rejected == c.jobs[k].rejected
  {
    StepLists(c, step, d);
    StepProgress(c, step, d);
    StepKeepsJobs(c, step, d);
  }

  lemma StepKeepsJobs(c: Ctl, step: Step, d: Ctl)
    requires Shapes(c) && Next(c, step, d) && !step.Restart?
    ensures c.jobs.Keys <= d.jobs.Keys
  {
    match step
    case Client(s) => ClientHopes(c, s, d);
    case Admit(s) => AdmitFrame(c, s, d);
    case Poll(s) => PollFrame(c, s, d);
    case Cards(s) => CardFrame(c, s, d);
    case Flush(_) =>
  }

  lemma OpenNodesFall(nodes: nat, was: JobInstance, now: JobInstance)
    requires OneMore(was.rejected, now.rejected)
    ensures |OpenNodes(nodes, now)| <= |OpenNodes(nodes, was)|
    ensures now.rejected[|was.rejected|] < nodes ==> |OpenNodes(nodes, now)| < |OpenNodes(nodes, was)|
  {
    var node := now.rejected[|was.rejected|];
    assert now.rejected == was.rejected + [node];
    assert OpenNodes(nodes, now) == OpenNodes(nodes, was) - {node};
  }

  /** No step takes a job further from its end, and a transition takes it nearer. */
  lemma RankFalls(c: Ctl, d: Ctl, k: JobKey)
    requires Moves(c.jobs, d.jobs) && Progressed(c, d) && ListsChanges(c, d) && k in c.jobs
    ensures Rank(|c.pools|, d.jobs[k]) <= Rank(|c.pools|, c.jobs[k])
    ensures Changed(c, d, k) ==> Rank(|c.pools|, d.jobs[k]) < Rank(|c.pools|, c.jobs[k])
  {
    assert LegalMove(c.jobs, k, d.jobs[k]);
    OpenNodesBound(|c.pools|, d.jobs[k]);
    if d.jobs[k].rejected == c.jobs[k].rejected {
      assert OpenNodes(|c.pools|, d.jobs[k]) == OpenNodes(|c.pools|, c.jobs[k]);
    } else {
      OpenNodesFall(|c.pools|, c.jobs[k], d.jobs[k]);
    }
  }

  /** A job's rank, counting one that has not been inserted yet as Pending. */
  function RankOf(c: Ctl): JobKey -> nat {
    k => if k in c.jobs then Rank(|c.pools|, c.jobs[k]) else |c.pools| + 3
  }

  ghost function Measure(c: Ctl, keys: set<JobKey>): nat {
    Sum(keys, RankOf(c))
  }

  /** These jobs' transitions in a step. */
  function Transitions(c: Ctl, d: Ctl, keys: set<JobKey>): set<JobKey> {
    set k | k in keys && Changed(c, d, k)
  }

  function Ones(s: set<JobKey>): JobKey -> nat {
    k => if k in s then 1 else 0
  }

  lemma {:induction false} SumOfOnes(s: set<JobKey>, t: set<JobKey>)
    requires s <= t
    ensures Sum(t, Ones(s)) == |s|
    decreases |s|
  {
    if s == {} {
      SumBound(t, Ones(s), 0);
    } else {
      var x :| x in s;
      SumOfOnes(s - {x}, t);
      SumChange(t, Ones(s - {x}), Ones(s), x);
    }
  }

  function RankPlusOne(d: Ctl, s: set<JobKey>): JobKey -> nat {
    k => (if k in d.jobs then Rank(|d.pools|, d.jobs[k]) else |d.pools| + 3) + (if k in s then 1 else 0)
  }

  lemma MeasureFalls(c: Ctl, d: Ctl, keys: set<JobKey>)
    requires Moves(c.jobs, d.jobs) && Progressed(c, d) && ListsChanges(c, d) && |d.pools| == |c.pools|
    ensures Measure(d, keys) + |Transitions(c, d, keys)| <= Measure(c, keys)
  {
    var new' := Transitions(c, d, keys);
    forall k | k in keys ensures RankPlusOne(d, new')(k) <= RankOf(c)(k) {
      if k in c.jobs {
        RankFalls(c, d, k);
      } else if k in d.jobs {
        assert LegalMove(c.jobs, k, d.jobs[k]);
      }
    }
    SumLe(keys, RankPlusOne(d, new'), RankOf(c));
    SumPlus(keys, RankOf(d), Ones(new'), RankPlusOne(d, new'));
    SumOfOnes(new', keys);
  }

  /** How many of these jobs make a transition in each step. */
  function TransitionCounts(states: seq<Ctl>, keys: set<JobKey>): seq<nat>
    requires states != []
  {
    seq(|states| - 1, i requires 0 <= i < |states| - 1 => |Transitions(states[i], states[i + 1], keys)|)
  }

  ghost function Measures(states: seq<Ctl>, keys: set<JobKey>): seq<nat> {
    seq(|states|, i requires 0 <= i < |states| => Measure(states[i], keys))
  }

  function Total(counts: seq<nat>): nat {
    if counts == [] then 0 else Total(counts[..|counts| - 1]) + counts[|counts| - 1]
  }

  /** All transitions of these jobs. */
  function AllTransitions(states: seq<Ctl>, keys: set<JobKey>): nat
    requires states != []
  {
    Total(TransitionCounts(states, keys))
  }

  predicate PaidFor(measures: seq<nat>, counts: seq<nat>, i: nat)
    requires i < |counts| && i + 1 < |measures|
  {
    measures[i + 1] + counts[i] <= measures[i]
  }

  lemma {:induction false} TotalIsPaidFor(measures: seq<nat>, counts: seq<nat>)
    requires |measures| == |counts| + 1 && forall i | 0 <= i < |counts| :: PaidFor(measures, counts, i)
    ensures Total(counts) + measures[|counts|] <= measures[0]
    decreases |counts|
  {
    if counts != [] {
      var n := |counts| - 1;
      var fewer, front := measures[..n + 1], counts[..n];
      forall i | 0 <= i < n ensures PaidFor(fewer, front, i) {
        assert PaidFor(measures, counts, i);
      }
      TotalIsPaidFor(fewer, front);
      assert PaidFor(measures, counts, n);
    }
  }

  /** A controller's lifetime: from the start, or from a restart, to the next crash. */
  ghost predicate IsLifetime(states: seq<Ctl>, steps: seq<Step>) {
    && |states| == |steps| + 1
    && AllInv(states[0])
    && forall i | 0 <= i < |steps| :: !steps[i].Restart? && Next(states[i], steps[i], states[i + 1])
  }

  lemma {:induction false} LifetimeKeeps(states: seq<Ctl>, steps: seq<Step>, i: nat)
    requires IsLifetime(states, steps) && i < |states|
    ensures AllInv(states[i])
  {
    if i > 0 {
      LifetimeKeeps(states, steps, i - 1);
      StepKeeps(states[i - 1], steps[i - 1], states[i]);
    }
  }

  lemma OneStepSpends(c: Ctl, step: Step, d: Ctl, keys: set<JobKey>)
    requires LedgerInv(c) && DepInv(c) && InFlightStored(c) && Next(c, step, d) && !step.Restart?
    ensures |d.pools| == |c.pools| && Measure(d, keys) + |Transitions(c, d, keys)| <= Measure(c, keys)
  {
    DepsKept(c, step, d);
    StepProgress(c, step, d);
    StepLists(c, step, d);
    MeasureFalls(c, d, keys);
  }

  lemma LifetimeStepSpends(states: seq<Ctl>, steps: seq<Step>, keys: set<JobKey>, i: nat)
    requires IsLifetime(states, steps) && i < |steps|
    ensures PaidFor(Measures(states, keys), TransitionCounts(states, keys), i)
  {
    LifetimeKeeps(states, steps, i);
    OneStepSpends(states[i], steps[i], states[i + 1], keys);
  }

  lemma InitialMeasure(c: Ctl, keys: set<JobKey>)
    ensures Measure(c, keys) <= |keys| * (|c.pools| + 3)
  {
    forall k | k in keys ensures RankOf(c)(k) <= |c.pools| + 3 {
      if k in c.jobs {
        OpenNodesBound(|c.pools|, c.jobs[k]);
      }
    }
    SumBound(keys, RankOf(c), |c.pools| + 3);
  }

  /** A run of w jobs on n nodes makes at most w * (n + 3) transitions in a controller's lifetime. */
  lemma TransitionsAreBounded(states: seq<Ctl>, steps: seq<Step>, run: RunId, w: Workflow)
    requires IsLifetime(states, steps)
    ensures AllTransitions(states, Keys(run, w)) <= |Keys(run, w)| * (|states[0].pools| + 3)
  {
    var keys := Keys(run, w);
    forall i | 0 <= i < |steps| ensures PaidFor(Measures(states, keys), TransitionCounts(states, keys), i) {
      LifetimeStepSpends(states, steps, keys, i);
    }
    TotalIsPaidFor(Measures(states, keys), TransitionCounts(states, keys));
    InitialMeasure(states[0], keys);
  }

  // Runs over a lifetime

  lemma LifetimeStepIsLater(states: seq<Ctl>, steps: seq<Step>, i: nat)
    requires IsLifetime(states, steps) && i < |steps|
    ensures Later(states[i], states[i + 1])
  {
    LifetimeKeeps(states, steps, i);
    StepIsLater(states[i], steps[i], states[i + 1]);
  }

  lemma LaterTwice(c: Ctl, d: Ctl, e: Ctl)
    requires Later(c, d) && Later(d, e)
    ensures Later(c, e)
  {
  }

  ghost predicate LaterAt(states: seq<Ctl>, n: nat)
    requires n + 1 < |states|
  {
    Later(states[n], states[n + 1])
  }

  lemma {:induction false} AllLater(states: seq<Ctl>, i: nat, j: nat)
    requires i <= j < |states| && forall n | 0 <= n < |states| - 1 :: LaterAt(states, n)
    ensures Later(states[i], states[j])
    decreases j - i
  {
    if i < j {
      AllLater(states, i, j - 1);
      assert LaterAt(states, j - 1);
      LaterTwice(states[i], states[j - 1], states[j]);
    }
  }

  lemma LifetimeIsLater(states: seq<Ctl>, steps: seq<Step>, i: nat, j: nat)
    requires IsLifetime(states, steps) && i <= j < |states|
    ensures Later(states[i], states[j])
  {
    forall n | 0 <= n < |states| - 1 ensures LaterAt(states, n) {
      LifetimeStepIsLater(states, steps, n);
    }
    AllLater(states, i, j);
  }

  lemma WholeInLifetime(states: seq<Ctl>, steps: seq<Step>, i: nat)
    requires IsLifetime(states, steps) && i < |states|
    ensures WholeRuns(states[i]) && AllInOrder(states[i].jobs) && GoodSpecs(states[i])
  {
    LifetimeKeeps(states, steps, i);
  }

  /** Over a controller's lifetime a run that Failed or Succeeded stays so, and one that was Cancelled can only become
      Failed. */
  lemma RunEndsStay(states: seq<Ctl>, steps: seq<Step>, i: nat, j: nat, run: RunId, before: seq<JobState>,
                    after: seq<JobState>)
    requires IsLifetime(states, steps) && i <= j < |states| && RunStates(states[i].jobs, run) != {}
    requires Lists(before, RunStates(states[i].jobs, run)) && Lists(after, RunStates(states[j].jobs, run))
    ensures DeriveRunState(before) == RunFailed ==> DeriveRunState(after) == RunFailed
    ensures DeriveRunState(before) == RunSucceeded ==> DeriveRunState(after) == RunSucceeded
    ensures DeriveRunState(before) == RunCancelled ==> DeriveRunState(after) in {RunCancelled, RunFailed}
  {
    WholeInLifetime(states, steps, i);
    WholeInLifetime(states, steps, j);
    LifetimeIsLater(states, steps, i, j);
    EndsStay(states[i], states[j], run, before, after);
  }
}

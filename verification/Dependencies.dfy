/** Job states over steps: the moves a job can make, dependency order, and where a waiting job can still go. */
module Dependencies {
  import opened Wrappers
  import opened Spec
  import opened Pool
  import opened Placement
  import opened Model
  import opened Controller
  import opened Ledger
  import Dag

  function DepGraph(w: Workflow): Dag.Graph {
    map id | id in w :: w[id].dependsOn
  }

  /** What validation leaves of a spec: jobs under their own ids, dependencies inside the run, and an order. */
  ghost predicate GoodWorkflow(w: Workflow) {
    && w != map[]
    && (forall id | id in w :: w[id].id == id)
    && (forall id | id in w :: forall dep | dep in w[id].dependsOn :: dep in w)
    && exists order :: Dag.TopoOrder(DepGraph(w), order)
  }

  ghost predicate GoodSpecs(c: Ctl) {
    forall run | run in c.specs ::
      GoodWorkflow(c.specs[run]) && forall id | id in c.specs[run] :: FitsSomewhere(c.pools, c.specs[run][id].resources)
  }

  /** A run's jobs are all there, each with its own spec. */
  ghost predicate WholeRuns(c: Ctl) {
    && (forall k | k in c.jobs :: k.run in c.specs && k.job in c.specs[k.run] && c.jobs[k].spec == c.specs[k.run][k.job])
    && forall k, id | k in c.jobs && id in c.specs[k.run] :: JobKey(k.run, id) in c.jobs
  }

  /** An admitted job's dependencies all succeeded; a skipped job has one that ended badly. */
  ghost predicate InOrder(jobs: map<JobKey, JobInstance>, k: JobKey)
    requires k in jobs
  {
    && (jobs[k].state.Admitted() ==> DepsSucceeded(jobs, k))
    && (jobs[k].state.Skipped? ==> SomeDepBad(jobs, k))
  }

  ghost predicate AllInOrder(jobs: map<JobKey, JobInstance>) {
    forall k | k in jobs :: InOrder(jobs, k)
  }

  /** A job that still waits has a node that hasn't turned it down and could take it. */
  ghost predicate Hopeful(c: Ctl) {
    forall k | k in c.jobs && (c.jobs[k].state.Pending? || c.jobs[k].state.Queued?) :: CouldGoElsewhere(c.pools, c.jobs[k])
  }

  /** A job is only ever sent to a node that hasn't turned it down. */
  ghost predicate FreshNodes(c: Ctl) {
    forall k | k in c.tasks && k in c.jobs :: !RejectedBy(c.jobs[k], c.tasks[k].placed.node)
  }

  ghost predicate DepInv(c: Ctl) {
    GoodSpecs(c) && WholeRuns(c) && AllInOrder(c.jobs) && Hopeful(c) && FreshNodes(c)
  }

  // The moves

  /** The job state diagram. Only a Pending job is ever skipped, and only a Queued one turned down, once by each node. */
  predicate LegalMove(jobs: map<JobKey, JobInstance>, k: JobKey, job: JobInstance) {
    if k !in jobs then job.state.Pending? && job.rejected == []
    else
      var was := jobs[k];
      && job.spec == was.spec
      && (job.rejected == was.rejected || (was.state.Queued? && OneMore(was.rejected, job.rejected)))
      && (|| job.state == was.state
          || (was.state.Pending? && job.state.Queued? && DepsSucceeded(jobs, k))
          || (was.state.Pending? && job.state.Skipped? && SomeDepBad(jobs, k))
          || (was.state.Queued? && (job.state.Running? || job.state.Failed?))
          || (was.state.Running? && (job.state.Succeeded? || job.state.Failed? || job.state.Cancelled?)))
  }

  predicate OneMore(was: seq<nat>, now: seq<nat>) {
    |now| == |was| + 1 && now[..|was|] == was && now[|was|] !in was
  }

  ghost predicate Moves(jobs: map<JobKey, JobInstance>, now: map<JobKey, JobInstance>) {
    jobs.Keys <= now.Keys && forall k | k in now :: LegalMove(jobs, k, now[k])
  }

  /** Ended jobs stay as they ended. */
  lemma EndedStays(jobs: map<JobKey, JobInstance>, now: map<JobKey, JobInstance>, k: JobKey)
    requires Moves(jobs, now) && k in jobs && jobs[k].state.IsTerminal()
    ensures now[k].state == jobs[k].state && now[k].spec == jobs[k].spec
  {
    assert LegalMove(jobs, k, now[k]);
  }

  lemma DepsStay(jobs: map<JobKey, JobInstance>, now: map<JobKey, JobInstance>, k: JobKey)
    requires Moves(jobs, now) && k in jobs
    ensures DepsSucceeded(jobs, k) ==> DepsSucceeded(now, k)
    ensures SomeDepBad(jobs, k) ==> SomeDepBad(now, k)
  {
    assert LegalMove(jobs, k, now[k]);
    if DepsSucceeded(jobs, k) {
      forall dep | dep in now[k].spec.dependsOn ensures HasSucceeded(now, JobKey(k.run, dep)) {
        assert HasSucceeded(jobs, JobKey(k.run, dep));
        EndedStays(jobs, now, JobKey(k.run, dep));
      }
    }
    if SomeDepBad(jobs, k) {
      var dep :| dep in jobs[k].spec.dependsOn && HasEndedBadly(jobs, JobKey(k.run, dep));
      EndedStays(jobs, now, JobKey(k.run, dep));
      assert HasEndedBadly(now, JobKey(k.run, dep));
    }
  }

  lemma OrderKept(jobs: map<JobKey, JobInstance>, now: map<JobKey, JobInstance>)
    requires AllInOrder(jobs) && Moves(jobs, now)
    ensures AllInOrder(now)
  {
    forall k | k in now ensures InOrder(now, k) {
      assert LegalMove(jobs, k, now[k]);
      if k in jobs {
        assert InOrder(jobs, k);
        DepsStay(jobs, now, k);
      }
    }
  }

  /** A queued job is never skipped: its dependencies all succeeded. */
  lemma NoQueuedSkips(jobs: map<JobKey, JobInstance>, k: JobKey)
    requires AllInOrder(jobs) && k in jobs && jobs[k].state.Admitted()
    ensures !SomeDepBad(jobs, k) && k !in ToSkip(jobs)
  {
    assert InOrder(jobs, k);
  }

  // Which steps make which moves

  lemma UnchangedMoves(jobs: map<JobKey, JobInstance>)
    ensures Moves(jobs, jobs)
  {
  }

  lemma OneMoves(jobs: map<JobKey, JobInstance>, k: JobKey, job: JobInstance)
    requires k in jobs && LegalMove(jobs, k, job)
    ensures Moves(jobs, jobs[k := job])
  {
  }

  lemma ClientMoves(c: Ctl, step: ClientStep, d: Ctl)
    requires Shapes(c) && ClientNext(c, step, d)
    ensures Moves(c.jobs, d.jobs)
  {
    match step
    case SubmitInsert(run) => SubmittedJobs(c, run);
    case CancelRun(run) =>
    case _ => UnchangedMoves(c.jobs);
  }

  lemma AdvancedMoves(c: Ctl)
    ensures Moves(c.jobs, Advanced(c).jobs)
  {
  }

  lemma CascadedMoves(c: Ctl)
    requires AllInOrder(c.jobs)
    ensures Moves(c.jobs, Cascaded(c).jobs)
  {
    var now := Cascaded(c).jobs;
    forall k | k in now ensures LegalMove(c.jobs, k, now[k]) {
      if k in ToSkip(c.jobs) && c.jobs[k].state.Queued? {
        NoQueuedSkips(c.jobs, k);
      }
    }
  }

  lemma NotStartedMove(c: Ctl, k: JobKey)
    requires Shapes(c) && FreshNodes(c) && k in c.tasks
    ensures var job := NotStarted(c.pools, c.jobs[k], c.tasks[k]); job.Some? ==> LegalMove(c.jobs, k, job.value)
  {
  }

  lemma LaunchAppliedMoves(c: Ctl, k: JobKey)
    requires Shapes(c) && FreshNodes(c) && k in c.tasks
    ensures Moves(c.jobs, LaunchApplied(c, k).jobs)
  {
    if c.tasks[k].result == Some(Launched) {
      OneMoves(c.jobs, k, Started(c, k).jobs[k]);
    } else {
      var job := NotStarted(c.pools, c.jobs[k], c.tasks[k]);
      NotStartedMove(c, k);
      if job.Some? {
        OneMoves(c.jobs, k, job.value);
      } else {
        UnchangedMoves(c.jobs);
      }
    }
  }

  lemma AdmitMoves(c: Ctl, step: AdmitStep, d: Ctl)
    requires Shapes(c) && AllInOrder(c.jobs) && FreshNodes(c) && AdmitNext(c, step, d)
    ensures Moves(c.jobs, d.jobs)
  {
    match step
    case AdvancePending => AdvancedMoves(c);
    case CascadeSkipped => CascadedMoves(c);
    case ApplyLaunch(k) => LaunchAppliedMoves(c, k);
    case _ => UnchangedMoves(c.jobs);
  }

  lemma PollMoves(c: Ctl, step: PollStep, d: Ctl)
    requires Shapes(c) && PollNext(c, step, d)
    ensures Moves(c.jobs, d.jobs)
  {
    match step
    case ApplyPoll(k) =>
      if Over(c.polls[k].reply.value) {
        OneMoves(c.jobs, k, Ended(c.jobs[k], c.polls[k]));
      } else {
        UnchangedMoves(c.jobs);
      }
    case _ => UnchangedMoves(c.jobs);
  }

  /** Every step but a restart moves every job along the diagram, so a terminal state never changes. */
  lemma StepMoves(c: Ctl, step: Step, d: Ctl)
    requires Shapes(c) && AllInOrder(c.jobs) && FreshNodes(c) && Next(c, step, d) && !step.Restart?
    ensures Moves(c.jobs, d.jobs)
  {
    match step
    case Client(s) => ClientMoves(c, s, d);
    case Admit(s) => AdmitMoves(c, s, d);
    case Poll(s) => PollMoves(c, s, d);
    case Cards(s) => CardFrame(c, s, d); UnchangedMoves(c.jobs);
    case _ => UnchangedMoves(c.jobs);
  }

  lemma MovesFollow(jobs: map<JobKey, JobInstance>, now: map<JobKey, JobInstance>, k: JobKey)
    requires Moves(jobs, now)
    ensures k in jobs ==>
              && k in now && now[k].spec == jobs[k].spec
              && (now[k].state == jobs[k].state || (jobs[k].state, now[k].state) in
                    {(Pending, Queued), (Pending, Skipped), (Queued, Running), (Queued, Failed), (Running, Failed),
                     (Running, JobState.Succeeded), (Running, JobState.Cancelled)})
              && (now[k].rejected == jobs[k].rejected
                  || (&& jobs[k].state == Queued && |now[k].rejected| == |jobs[k].rejected| + 1
                      && now[k].rejected[..|jobs[k].rejected|] == jobs[k].rejected
                      && now[k].rejected[|jobs[k].rejected|] !in jobs[k].rejected))
    ensures k !in jobs && k in now ==> now[k].state == Pending && now[k].rejected == []
  {
    if k in now {
      assert LegalMove(jobs, k, now[k]);
    }
  }

  /** The job state diagram, arrow by arrow. */
  lemma StepFollowsDiagram(c: Ctl, step: Step, d: Ctl, k: JobKey)
    requires Shapes(c) && AllInOrder(c.jobs) && FreshNodes(c) && Next(c, step, d) && !step.Restart?
    ensures k in c.jobs ==>
              && k in d.jobs && d.jobs[k].spec == c.jobs[k].spec
              && (d.jobs[k].state == c.jobs[k].state || (c.jobs[k].state, d.jobs[k].state) in
                    {(Pending, Queued), (Pending, Skipped), (Queued, Running), (Queued, Failed), (Running, Failed),
                     (Running, JobState.Succeeded), (Running, JobState.Cancelled)})
              && (d.jobs[k].rejected == c.jobs[k].rejected
                  || (&& c.jobs[k].state == Queued && |d.jobs[k].rejected| == |c.jobs[k].rejected| + 1
                      && d.jobs[k].rejected[..|c.jobs[k].rejected|] == c.jobs[k].rejected
                      && d.jobs[k].rejected[|c.jobs[k].rejected|] !in c.jobs[k].rejected))
    ensures k !in c.jobs && k in d.jobs ==> d.jobs[k].state == Pending && d.jobs[k].rejected == []
  {
    StepMoves(c, step, d);
    MovesFollow(c.jobs, d.jobs, k);
  }

  /** What dependency order says of a job: past Pending, all it depends on succeeded; skipped, something it depends on did
      not. */
  lemma OrderMeans(jobs: map<JobKey, JobInstance>, k: JobKey)
    requires AllInOrder(jobs) && k in jobs
    ensures jobs[k].state in {Queued, Running, JobState.Succeeded, Failed, JobState.Cancelled, TimedOut, Interrupted} ==>
              forall dep | dep in jobs[k].spec.dependsOn ::
                JobKey(k.run, dep) in jobs && jobs[JobKey(k.run, dep)].state == JobState.Succeeded
    ensures jobs[k].state == Skipped ==>
              exists dep | dep in jobs[k].spec.dependsOn ::
                && JobKey(k.run, dep) in jobs
                && jobs[JobKey(k.run, dep)].state in {Failed, Skipped, JobState.Cancelled, TimedOut, Interrupted}
  {
    assert InOrder(jobs, k);
    if jobs[k].state.Admitted() {
      forall dep | dep in jobs[k].spec.dependsOn
        ensures JobKey(k.run, dep) in jobs && jobs[JobKey(k.run, dep)].state == JobState.Succeeded
      {
        assert HasSucceeded(jobs, JobKey(k.run, dep));
      }
    }
    if jobs[k].state.Skipped? {
      var dep :| dep in jobs[k].spec.dependsOn && HasEndedBadly(jobs, JobKey(k.run, dep));
      assert JobKey(k.run, dep) in jobs;
    }
  }

  // Nodes never change size

  ghost predicate SameTotals(pools: seq<PoolState>, now: seq<PoolState>) {
    |now| == |pools| && forall n | 0 <= n < |pools| :: now[n].total == pools[n].total
  }

  lemma ReleasedAllTotals(pools: seq<PoolState>, executions: seq<Execution>)
    ensures SameTotals(pools, ReleasedAll(pools, executions))
    decreases executions
  {
    if executions != [] {
      ReleasedAllTotals(ReleasedAt(pools, executions[0]), executions[1..]);
    }
  }

  // What each kind of step leaves alone

  lemma ClientFrame(c: Ctl, step: ClientStep, d: Ctl)
    requires ClientNext(c, step, d)
    ensures d.pools == c.pools && d.tasks == c.tasks && d.polls == c.polls && d.qualifying == c.qualifying
    ensures d.phase == c.phase && d.toWrite == c.toWrite && d.released == c.released
  {
  }

  lemma GivenBackFrame(c: Ctl, k: JobKey, job: Option<JobInstance>)
    requires k in c.tasks && k in c.jobs
    ensures var d := GivenBack(c, k, job);
            && d.specs == c.specs && d.rows == c.rows && d.submitting == c.submitting && d.jobs.Keys == c.jobs.Keys
            && d.polls == c.polls && d.released == c.released && d.qualifying == c.qualifying
            && SameTotals(c.pools, d.pools)
  {
  }

  lemma LaunchAppliedFrame(c: Ctl, k: JobKey)
    requires k in c.tasks && k in c.jobs
    ensures var d := LaunchApplied(c, k);
            && d.specs == c.specs && d.rows == c.rows && d.submitting == c.submitting && d.jobs.Keys == c.jobs.Keys
            && d.polls == c.polls && d.released == c.released && d.qualifying == c.qualifying
            && SameTotals(c.pools, d.pools)
  {
    if c.tasks[k].result != Some(Launched) {
      GivenBackFrame(c, k, NotStarted(c.pools, c.jobs[k], c.tasks[k]));
    }
  }

  lemma AdmitFrame(c: Ctl, step: AdmitStep, d: Ctl)
    requires Shapes(c) && AdmitNext(c, step, d)
    ensures d.specs == c.specs && d.rows == c.rows && d.submitting == c.submitting && d.jobs.Keys == c.jobs.Keys
    ensures d.polls == c.polls && d.released == c.released && d.qualifying == c.qualifying
    ensures SameTotals(c.pools, d.pools)
  {
    match step
    case ApplyLaunch(k) => LaunchAppliedFrame(c, k);
    case _ =>
  }

  lemma FinishedFrame(c: Ctl, k: JobKey, job: JobInstance)
    requires k in c.jobs && job.rejected == c.jobs[k].rejected
    ensures var d := Finished(c, k, job);
            && d.specs == c.specs && d.rows == c.rows && d.submitting == c.submitting && d.jobs.Keys == c.jobs.Keys
            && d.tasks == c.tasks && d.qualifying == c.qualifying && SameTotals(c.pools, d.pools)
            && forall j | j in c.jobs :: d.jobs[j].rejected == c.jobs[j].rejected
  {
    ReleasedAllTotals(c.pools, c.jobs[k].executions);
  }

  lemma PollFrame(c: Ctl, step: PollStep, d: Ctl)
    requires PollNext(c, step, d)
    ensures d.specs == c.specs && d.rows == c.rows && d.submitting == c.submitting && d.jobs.Keys == c.jobs.Keys
    ensures d.tasks == c.tasks && d.qualifying == c.qualifying && SameTotals(c.pools, d.pools)
    ensures forall k | k in c.jobs :: d.jobs[k].rejected == c.jobs[k].rejected
  {
    match step
    case ApplyPoll(k) =>
      if k in c.jobs && Over(c.polls[k].reply.value) {
        FinishedFrame(c, k, Ended(c.jobs[k], c.polls[k]));
      }
    case _ =>
  }

  lemma CardFrame(c: Ctl, step: CardStep, d: Ctl)
    requires CardNext(c, step, d)
    ensures d.specs == c.specs && d.rows == c.rows && d.submitting == c.submitting && d.jobs == c.jobs
    ensures d.tasks == c.tasks && d.polls == c.polls && d.toWrite == c.toWrite && d.released == c.released
  {
  }

  lemma CardTotals(c: Ctl, step: CardStep, d: Ctl)
    requires CardNext(c, step, d)
    ensures SameTotals(c.pools, d.pools)
  {
  }

  lemma StepTotals(c: Ctl, step: Step, d: Ctl)
    requires Shapes(c) && Next(c, step, d) && !step.Restart?
    ensures SameTotals(c.pools, d.pools)
  {
    match step
    case Client(s) => ClientFrame(c, s, d);
    case Admit(s) => AdmitFrame(c, s, d);
    case Poll(s) => PollFrame(c, s, d);
    case Cards(s) => CardTotals(c, s, d);
    case _ =>
  }

  lemma CouldGoSame(pools: seq<PoolState>, now: seq<PoolState>, resources: ResourceSpec, node: nat)
    requires SameTotals(pools, now)
    ensures CouldGoTo(now, resources, node) == CouldGoTo(pools, resources, node)
  {
  }

  lemma CouldGoElsewhereSame(pools: seq<PoolState>, now: seq<PoolState>, job: JobInstance, job': JobInstance)
    requires SameTotals(pools, now) && CouldGoElsewhere(pools, job)
    requires job'.spec == job.spec && job'.rejected == job.rejected
    ensures CouldGoElsewhere(now, job')
  {
    var node :| 0 <= node < |pools| && !RejectedBy(job, node) && CouldGoTo(pools, job.spec.resources, node);
    CouldGoSame(pools, now, job.spec.resources, node);
    assert !RejectedBy(job', node) && CouldGoTo(now, job'.spec.resources, node);
  }

  lemma FitsSomewhereSame(pools: seq<PoolState>, now: seq<PoolState>, resources: ResourceSpec)
    requires SameTotals(pools, now) && FitsSomewhere(pools, resources)
    ensures FitsSomewhere(now, resources)
  {
    var node :| 0 <= node < |pools| && CouldGoTo(pools, resources, node);
    CouldGoSame(pools, now, resources, node);
  }

  lemma FreshIsHopeful(pools: seq<PoolState>, job: JobInstance)
    requires FitsSomewhere(pools, job.spec.resources) && job.rejected == []
    ensures CouldGoElsewhere(pools, job)
  {
    var node :| 0 <= node < |pools| && CouldGoTo(pools, job.spec.resources, node);
    assert !RejectedBy(job, node);
  }

  /** A job turned down but still waiting could go elsewhere. */
  ghost predicate HopeAfterRejection(c: Ctl, d: Ctl) {
    forall k | k in c.jobs && k in d.jobs && d.jobs[k].rejected != c.jobs[k].rejected && d.jobs[k].state.Queued? ::
      CouldGoElsewhere(c.pools, d.jobs[k])
  }

  lemma TurnedDownHopes(pools: seq<PoolState>, job: JobInstance, task: AdmitTask)
    requires task.result == Some(TurnedDown)
    ensures NotStarted(pools, job, task).Some?
    ensures NotStarted(pools, job, task).value.state == job.state != Failed ==>
        CouldGoElsewhere(pools, NotStarted(pools, job, task).value)
  {
  }

  lemma GivenBackHopes(c: Ctl, k: JobKey, job: Option<JobInstance>)
    requires k in c.tasks && k in c.jobs
    requires || job.None? || job.value.rejected == c.jobs[k].rejected
             || !job.value.state.Queued? || CouldGoElsewhere(c.pools, job.value)
    ensures HopeAfterRejection(c, GivenBack(c, k, job))
  {
  }

  lemma NotStartedHopes(pools: seq<PoolState>, job: JobInstance, task: AdmitTask)
    requires job.state.Queued?
    ensures var now := NotStarted(pools, job, task);
            now.None? || now.value.rejected == job.rejected || !now.value.state.Queued? || CouldGoElsewhere(pools,
                now.value)
  {
    if task.result == Some(TurnedDown) {
      TurnedDownHopes(pools, job, task);
    }
  }

  lemma LaunchAppliedHopes(c: Ctl, k: JobKey)
    requires Shapes(c) && k in c.tasks
    ensures HopeAfterRejection(c, LaunchApplied(c, k))
  {
    if c.tasks[k].result != Some(Launched) {
      var job := NotStarted(c.pools, c.jobs[k], c.tasks[k]);
      NotStartedHopes(c.pools, c.jobs[k], c.tasks[k]);
      GivenBackHopes(c, k, job);
    }
  }

  lemma AdmitHopes(c: Ctl, step: AdmitStep, d: Ctl)
    requires Shapes(c) && AdmitNext(c, step, d)
    ensures HopeAfterRejection(c, d)
  {
    match step
    case ApplyLaunch(k) => LaunchAppliedHopes(c, k);
    case _ =>
  }

  lemma StepHopes(c: Ctl, step: Step, d: Ctl)
    requires Shapes(c) && Next(c, step, d) && !step.Restart?
    ensures HopeAfterRejection(c, d)
  {
    match step
    case Client(s) => ClientHopes(c, s, d);
    case Admit(s) => AdmitHopes(c, s, d);
    case Poll(s) => PollFrame(c, s, d);
    case Cards(s) => CardFrame(c, s, d);
    case _ =>
  }

  lemma ClientHopes(c: Ctl, step: ClientStep, d: Ctl)
    requires Shapes(c) && ClientNext(c, step, d)
    ensures forall k | k in c.jobs :: k in d.jobs && d.jobs[k].rejected == c.jobs[k].rejected
  {
    if step.SubmitInsert? {
      SubmittedJobs(c, step.run);
    }
  }

  lemma HopeKept(c: Ctl, d: Ctl)
    requires GoodSpecs(c) && Hopeful(c) && Moves(c.jobs, d.jobs) && SameTotals(c.pools, d.pools)
    requires HopeAfterRejection(c, d)
    requires forall k | k in d.jobs && k !in c.jobs ::
               k.run in c.specs && k.job in c.specs[k.run] && d.jobs[k].spec == c.specs[k.run][k.job]
    ensures Hopeful(d)
  {
    forall k | k in d.jobs && (d.jobs[k].state.Pending? || d.jobs[k].state.Queued?)
      ensures CouldGoElsewhere(d.pools, d.jobs[k]) {
      assert LegalMove(c.jobs, k, d.jobs[k]);
      if k !in c.jobs {
        FreshIsHopeful(c.pools, d.jobs[k]);
        CouldGoElsewhereSame(c.pools, d.pools, d.jobs[k], d.jobs[k]);
      } else if d.jobs[k].rejected == c.jobs[k].rejected {
        CouldGoElsewhereSame(c.pools, d.pools, c.jobs[k], d.jobs[k]);
      } else {
        CouldGoElsewhereSame(c.pools, d.pools, d.jobs[k], d.jobs[k]);
      }
    }
  }

  lemma ReservedFresh(c: Ctl, k: JobKey, online: seq<bool>, placed: Placed)
    requires GoodPools(c.pools) && CanReserve(c, k, online, placed)
    ensures !RejectedBy(c.jobs[k], placed.node)
  {
    PlacedOne(c.pools, Usable(online, c.jobs[k]), c.jobs[k].spec.resources, placed);
  }

  lemma LaunchAppliedFresh(c: Ctl, k: JobKey)
    requires FreshNodes(c) && k in c.tasks
    ensures FreshNodes(LaunchApplied(c, k))
  {
  }

  lemma AdmitFresh(c: Ctl, step: AdmitStep, d: Ctl)
    requires GoodPools(c.pools) && Shapes(c) && Phases(c) && FreshNodes(c) && AdmitNext(c, step, d)
    ensures FreshNodes(d)
  {
    match step
    case ReserveJob(k, online, placed) => ReservedFresh(c, k, online, placed);
    case ApplyLaunch(k) => LaunchAppliedFresh(c, k);
    case LaunchDone(k, _) => assert d.tasks[k].placed == c.tasks[k].placed;
    case _ =>
  }

  lemma StepFresh(c: Ctl, step: Step, d: Ctl)
    requires LedgerInv(c) && FreshNodes(c) && Next(c, step, d) && !step.Restart?
    ensures FreshNodes(d)
  {
    match step
    case Client(s) => ClientFrame(c, s, d); ClientHopes(c, s, d);
    case Admit(s) => AdmitFresh(c, s, d);
    case Poll(s) => PollFrame(c, s, d);
    case Cards(s) => CardFrame(c, s, d);
    case _ =>
  }

  // Specs

  lemma ValidIsGood(jobs: seq<JobSpec>)
    requires Dag.Valid(jobs)
    ensures GoodWorkflow(ById(jobs))
  {
    var w := ById(jobs);
    assert DepGraph(w) == Dag.GraphOf(jobs);
    var order := Dag.ValidHasOrder(jobs);
    forall id | id in w ensures w[id].id == id && forall dep | dep in w[id].dependsOn :: dep in w {
      var job :| job in jobs && job.id == id;
      forall dep | dep in job.dependsOn ensures dep in w {
        assert dep in Dag.SetOf(job.dependsOn);
      }
    }
    assert jobs[0] in jobs && jobs[0].id in w;
  }

  lemma AcceptedSpecs(c: Ctl, run: RunId, jobs: seq<JobSpec>, d: Ctl)
    requires GoodSpecs(c) && Acceptable(c, jobs) && d.specs == c.specs[run := ById(jobs)] && d.pools == c.pools
    ensures GoodSpecs(d)
  {
    ValidIsGood(jobs);
    forall id | id in ById(jobs) ensures FitsSomewhere(c.pools, ById(jobs)[id].resources) {
      var job :| job in jobs && job.id == id;
    }
  }

  lemma SpecsSame(c: Ctl, d: Ctl)
    requires GoodSpecs(c) && d.specs == c.specs && SameTotals(c.pools, d.pools)
    ensures GoodSpecs(d)
  {
    forall run, id | run in d.specs && id in d.specs[run] ensures FitsSomewhere(d.pools, d.specs[run][id].resources) {
      FitsSomewhereSame(c.pools, d.pools, c.specs[run][id].resources);
    }
  }

  lemma SpecsKept(c: Ctl, step: Step, d: Ctl)
    requires Shapes(c) && GoodSpecs(c) && Next(c, step, d) && !step.Restart?
    ensures GoodSpecs(d)
  {
    StepTotals(c, step, d);
    match step
    case Client(SubmitAccept(run, jobs)) => AcceptedSpecs(c, run, jobs, d);
    case _ => StepSpecs(c, step, d); SpecsSame(c, d);
  }

  lemma StepSpecs(c: Ctl, step: Step, d: Ctl)
    requires Shapes(c) && Next(c, step, d) && !step.Restart? && !(step.Client? && step.client.SubmitAccept?)
    ensures d.specs == c.specs
  {
    match step
    case Admit(s) => AdmitFrame(c, s, d);
    case Poll(s) => PollFrame(c, s, d);
    case Cards(s) => CardFrame(c, s, d);
    case Client(s) => ClientSpecs(c, s, d);
    case _ =>
  }

  lemma ClientSpecs(c: Ctl, step: ClientStep, d: Ctl)
    requires ClientNext(c, step, d) && !step.SubmitAccept?
    ensures d.specs == c.specs
  {
  }

  lemma ClientKeys(c: Ctl, step: ClientStep, d: Ctl)
    requires ClientNext(c, step, d) && !step.SubmitInsert?
    ensures d.jobs.Keys == c.jobs.Keys && c.specs.Keys <= d.specs.Keys && forall run | run in c.specs ::
        d.specs[run] == c.specs[run]
  {
  }

  /** Only an insert adds jobs, and then a run's whole spec. */
  lemma StepKeys(c: Ctl, step: Step, d: Ctl)
    requires Shapes(c) && Next(c, step, d) && !step.Restart? && !(step.Client? && step.client.SubmitInsert?)
    ensures d.jobs.Keys == c.jobs.Keys && c.specs.Keys <= d.specs.Keys && forall run | run in c.specs ::
        d.specs[run] == c.specs[run]
  {
    match step
    case Client(s) => ClientKeys(c, s, d);
    case Admit(s) => AdmitFrame(c, s, d);
    case Poll(s) => PollFrame(c, s, d);
    case Cards(s) => CardFrame(c, s, d);
    case _ =>
  }

  lemma WholeStays(c: Ctl, d: Ctl)
    requires WholeRuns(c) && Moves(c.jobs, d.jobs) && d.jobs.Keys == c.jobs.Keys
    requires c.specs.Keys <= d.specs.Keys && forall run | run in c.specs :: d.specs[run] == c.specs[run]
    ensures WholeRuns(d)
  {
    forall k | k in d.jobs ensures d.jobs[k].spec == c.jobs[k].spec {
      assert LegalMove(c.jobs, k, d.jobs[k]);
    }
  }

  lemma WholeInserted(c: Ctl, run: RunId, d: Ctl)
    requires WholeRuns(c) && run in c.specs && d.specs == c.specs
    requires d.jobs.Keys == c.jobs.Keys + Keys(run, c.specs[run])
    requires forall k | k in c.jobs :: d.jobs[k] == c.jobs[k]
    requires forall k | k in d.jobs && k !in c.jobs ::
               k.run == run && k.job in c.specs[run] && d.jobs[k] == NewJob(c.specs[run][k.job])
    ensures WholeRuns(d)
  {
  }

  lemma RunsStayWhole(c: Ctl, step: Step, d: Ctl)
    requires Shapes(c) && WholeRuns(c) && Moves(c.jobs, d.jobs) && Next(c, step, d) && !step.Restart?
    ensures WholeRuns(d)
    ensures forall k | k in d.jobs && k !in c.jobs ::
              k.run in c.specs && k.job in c.specs[k.run] && d.jobs[k].spec == c.specs[k.run][k.job]
  {
    match step
    case Client(SubmitInsert(run)) => SubmittedJobs(c, run); WholeInserted(c, run, d);
    case _ => StepKeys(c, step, d); WholeStays(c, d);
  }

  lemma DepsKept(c: Ctl, step: Step, d: Ctl)
    requires LedgerInv(c) && DepInv(c) && Next(c, step, d) && !step.Restart?
    ensures DepInv(d) && Moves(c.jobs, d.jobs) && SameTotals(c.pools, d.pools)
  {
    SpecsKept(c, step, d);
    StepMoves(c, step, d);
    OrderKept(c.jobs, d.jobs);
    RunsStayWhole(c, step, d);
    StepTotals(c, step, d);
    StepHopes(c, step, d);
    HopeKept(c, d);
    StepFresh(c, step, d);
  }
}

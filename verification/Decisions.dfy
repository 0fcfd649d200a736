/** What the controller decides, said of jobs, pools and rows and not of the functions that decide it:
 *  src/scheduler/mod.rs, src/ipc/server.rs, src/daemon/recover.rs. */
module Decisions {
  import opened Wrappers
  import opened Spec
  import opened Pool
  import opened Placement
  import opened Model
  import opened Controller
  import opened Ledger
  import opened Recovery
  import Dag

  // Taking a workflow in

  lemma CouldGoToIff(pools: seq<PoolState>, resources: ResourceSpec, node: nat)
    ensures CouldGoTo(pools, resources, node) <==> node < |pools| && RoomFor(pools[node].total, resources)
  {
    if node < |pools| {
      RoomIffSomeOption(pools[node].total, resources);
    }
  }

  lemma FitsSomewhereIff(pools: seq<PoolState>, resources: ResourceSpec)
    ensures FitsSomewhere(pools, resources) <==> exists n | 0 <= n < |pools| :: RoomFor(pools[n].total, resources)
  {
    if n :| 0 <= n < |pools| && RoomFor(pools[n].total, resources) {
      CouldGoToIff(pools, resources, n);
    }
    if n :| 0 <= n < |pools| && CouldGoTo(pools, resources, n) {
      CouldGoToIff(pools, resources, n);
    }
  }

  lemma CouldGoElsewhereIff(pools: seq<PoolState>, job: JobInstance)
    ensures CouldGoElsewhere(pools, job) <==>
            exists n | 0 <= n < |pools| :: n !in job.rejected && RoomFor(pools[n].total, job.spec.resources)
  {
    if n :| 0 <= n < |pools| && n !in job.rejected && RoomFor(pools[n].total, job.spec.resources) {
      CouldGoToIff(pools, job.spec.resources, n);
      assert !RejectedBy(job, n);
    }
    if n :| 0 <= n < |pools| && !RejectedBy(job, n) && CouldGoTo(pools, job.spec.resources, n) {
      CouldGoToIff(pools, job.spec.resources, n);
    }
  }

  lemma FreshPoolReserves(total: SystemResources, resources: ResourceSpec)
    requires WellIndexed(total)
    ensures WellFormed(NewPool(total))
    ensures (exists option | option in GpuOptions(resources) :: Reserve(NewPool(total), option).Some?) <==>
            RoomFor(total, resources)
  {
    var p := NewPool(total);
    forall res ensures Available(p, res) == Capacity(total, res) {
      FreshPoolIsFree(total, res);
    }
    assert p.total == total;
    forall option | option in GpuOptions(resources) ensures Reserve(p, option).Some? <==> CouldFit(total, option) {
      IdleFitsWhatCouldFit(p, option);
    }
    RoomIffSomeOption(total, resources);
  }

  /** Some of these nodes have room for a job exactly if it is placed on one of them when they are all free. */
  lemma RoomIffPlaceable(pools: seq<PoolState>, usable: seq<bool>, resources: ResourceSpec)
    requires |usable| == |pools| && forall n | 0 <= n < |pools| :: WellIndexed(pools[n].total)
    ensures AllShaped(FreshPools(pools))
    ensures (exists n | 0 <= n < |pools| :: usable[n] && RoomFor(pools[n].total, resources)) <==>
            PlaceMember(FreshPools(pools), usable, resources).Some?
  {
    var fresh' := FreshPools(pools);
    forall n | 0 <= n < |pools|
      ensures Shaped(fresh'[n])
      ensures (exists option | option in GpuOptions(resources) :: Reserve(fresh'[n], option).Some?) <==>
              RoomFor(pools[n].total, resources)
    {
      FreshPoolReserves(pools[n].total, resources);
    }
    PlacesIff(fresh', usable, resources);
  }

  /** A workflow is admitted job by job: exactly if each could be placed on the nodes when they are all free. */
  lemma AdmittedIffPlaceable(pools: seq<PoolState>, resources: ResourceSpec)
    requires forall n | 0 <= n < |pools| :: WellIndexed(pools[n].total)
    ensures AllShaped(FreshPools(pools))
    ensures FitsSomewhere(pools, resources) <==>
            PlaceMember(FreshPools(pools), seq(|pools|, n => true), resources).Some?
  {
    FitsSomewhereIff(pools, resources);
    RoomIffPlaceable(pools, seq(|pools|, n => true), resources);
  }

  /** A job that nodes turned down has hope left exactly if it could be placed on the others when they are all free. */
  lemma HopeIffPlaceable(pools: seq<PoolState>, job: JobInstance)
    requires forall n | 0 <= n < |pools| :: WellIndexed(pools[n].total)
    ensures AllShaped(FreshPools(pools))
    ensures CouldGoElsewhere(pools, job) <==>
            PlaceMember(FreshPools(pools), seq(|pools|, n => n !in job.rejected), job.spec.resources).Some?
  {
    var usable := seq(|pools|, n => n !in job.rejected);
    CouldGoElsewhereIff(pools, job);
    RoomIffPlaceable(pools, usable, job.spec.resources);
    assert forall n | 0 <= n < |pools| :: usable[n] <==> n !in job.rejected;
  }

  predicate SomeNodeHasRoom(pools: seq<PoolState>, resources: ResourceSpec) {
    exists n | 0 <= n < |pools| :: RoomFor(pools[n].total, resources)
  }

  /** Taken in is exactly a valid workflow each of whose jobs some node has room for. */
  lemma AcceptableIff(c: Ctl, pools: seq<PoolState>, jobs: seq<JobSpec>)
    requires pools == c.pools
    ensures Acceptable(c, jobs) <==> Dag.Valid(jobs) && forall job | job in jobs :: SomeNodeHasRoom(pools, job.resources)
  {
    forall job | job in jobs ensures FitsSomewhere(c.pools, job.resources) <==> SomeNodeHasRoom(c.pools, job.resources) {
      FitsSomewhereIff(c.pools, job.resources);
    }
  }

  // Queueing, skipping and cancelling

  /** Queued is exactly each Pending job all of whose dependencies are jobs of its run that Succeeded; all others stay as
      they are, whatever else their run is doing, and the changed ones are listed. */
  lemma QueuedExactly(c: Ctl)
    ensures var d := Advanced(c);
            && d.jobs.Keys == c.jobs.Keys && d == c.(jobs := d.jobs, toWrite := d.toWrite, phase := Cascading)
            && (forall k | k in c.jobs ::
                  d.jobs[k] ==
                  if c.jobs[k].state == Pending
                     && forall dep | dep in c.jobs[k].spec.dependsOn ::
                          JobKey(k.run, dep) in c.jobs && c.jobs[JobKey(k.run, dep)].state == JobState.Succeeded
                  then c.jobs[k].(state := Queued) else c.jobs[k])
            && d.toWrite == set k | k in c.jobs && d.jobs[k] != c.jobs[k]
  {
    forall k | k in c.jobs
      ensures DepsSucceeded(c.jobs, k) <==>
              forall dep | dep in c.jobs[k].spec.dependsOn ::
                JobKey(k.run, dep) in c.jobs && c.jobs[JobKey(k.run, dep)].state == JobState.Succeeded
    {
    }
  }

  /** Skipped is exactly each Pending or Queued job with a dependency in its run that ended without success. */
  lemma SkippedExactly(c: Ctl)
    ensures var d := Cascaded(c);
            && d.jobs.Keys == c.jobs.Keys && d == c.(jobs := d.jobs, toWrite := d.toWrite, phase := Reserving)
            && (forall k | k in c.jobs ::
                  d.jobs[k] ==
                  if c.jobs[k].state in {Pending, Queued}
                     && exists dep | dep in c.jobs[k].spec.dependsOn ::
                          && JobKey(k.run, dep) in c.jobs
                          && c.jobs[JobKey(k.run, dep)].state in {Failed, Skipped, JobState.Cancelled, TimedOut, Interrupted}
                  then c.jobs[k].(state := Skipped) else c.jobs[k])
            && d.toWrite == set k | k in c.jobs && d.jobs[k] != c.jobs[k]
  {
    forall k | k in c.jobs
      ensures SomeDepBad(c.jobs, k) <==>
              exists dep | dep in c.jobs[k].spec.dependsOn ::
                && JobKey(k.run, dep) in c.jobs
                && c.jobs[JobKey(k.run, dep)].state in {Failed, Skipped, JobState.Cancelled, TimedOut, Interrupted}
    {
      if dep :| dep in c.jobs[k].spec.dependsOn && HasEndedBadly(c.jobs, JobKey(k.run, dep)) {
        assert JobKey(k.run, dep) in c.jobs;
      }
      if dep :| dep in c.jobs[k].spec.dependsOn && JobKey(k.run, dep) in c.jobs
                && c.jobs[JobKey(k.run, dep)].state in {Failed, Skipped, JobState.Cancelled, TimedOut, Interrupted} {
        assert HasEndedBadly(c.jobs, JobKey(k.run, dep));
      }
    }
  }

  // Placing

  /** A job may go to a node exactly if that node is online and has not turned it down, whatever the others are. */
  lemma UsableIs(online: seq<bool>, job: JobInstance)
    ensures |Usable(online, job)| == |online|
    ensures forall n | 0 <= n < |online| :: Usable(online, job)[n] <==> online[n] && n !in job.rejected
  {
  }

  /** A queued job finds a place exactly if some online node that has not turned it down can reserve one of its options. */
  lemma PlacedIff(c: Ctl, online: seq<bool>, k: JobKey)
    requires AllShaped(c.pools) && |online| == |c.pools| && k in c.jobs && c.jobs[k].state.Queued? && k !in c.tasks
    ensures (exists placed :: CanReserve(c, k, online, placed)) <==>
            exists n, option | 0 <= n < |c.pools| && option in GpuOptions(c.jobs[k].spec.resources) ::
              online[n] && n !in c.jobs[k].rejected && Reserve(c.pools[n], option).Some?
  {
    var usable, resources := Usable(online, c.jobs[k]), c.jobs[k].spec.resources;
    UsableIs(online, c.jobs[k]);
    PlacesIff(c.pools, usable, resources);
    PlaceSingle(c.pools, usable, resources);
    if PlaceMember(c.pools, usable, resources).Some? {
      assert CanReserve(c, k, online, PlaceMember(c.pools, usable, resources).value);
      var i, node :| 0 <= i < |GpuOptions(resources)| && 0 <= node < |c.pools| && usable[node]
                     && Reserve(c.pools[node], GpuOptions(resources)[i]).Some?;
      assert GpuOptions(resources)[i] in GpuOptions(resources);
    }
  }

  // Launching and polling

  /** A job once its launch has come back, with the reservation kept or given back. */
  lemma LaunchBecomes(c: Ctl, k: JobKey)
    requires k in c.tasks && k in c.jobs && c.tasks[k].result.Some? && c.tasks[k].placed.node < |c.pools|
    ensures var was, placed, d := c.jobs[k], c.tasks[k].placed, LaunchApplied(c, k);
            var given := c.pools[placed.node := Released(c.pools[placed.node], placed.allocation)];
            var rejected := was.rejected + [placed.node];
            var left := exists n | 0 <= n < |c.pools| :: n !in rejected && RoomFor(c.pools[n].total, was.spec.resources);
            d == match c.tasks[k].result.value
                 case Launched =>
                   c.(tasks := c.tasks - {k}, toWrite := c.toWrite + {k},
                      jobs := c.jobs[k := was.(state := Running, executions := [placed])])
                 case Unreachable => c.(tasks := c.tasks - {k}, pools := given)
                 case TurnedDown =>
                   c.(tasks := c.tasks - {k}, pools := given, toWrite := c.toWrite + {k},
                      jobs := c.jobs[k := was.(rejected := rejected, state := if left then was.state else Failed)])
                 case LaunchFailed =>
                   c.(tasks := c.tasks - {k}, pools := given, toWrite := c.toWrite + {k},
                      jobs := c.jobs[k := was.(state := Failed)])
  {
    if c.tasks[k].result.value.TurnedDown? {
      CouldGoElsewhereIff(c.pools, c.jobs[k].(rejected := c.jobs[k].rejected + [c.tasks[k].placed.node]));
    }
  }

  /** A running job once it was polled. */
  lemma PollBecomes(c: Ctl, k: JobKey)
    requires k in c.polls && k in c.jobs && c.polls[k].reply.Some?
    requires |c.jobs[k].executions| == 1 && c.jobs[k].executions[0].node < |c.pools|
    ensures var was, held, d := c.jobs[k], c.jobs[k].executions[0], PollApplied(c, k);
            var over := c.(polls := c.polls - {k}, toWrite := c.toWrite + {k}, released := c.released[k := held],
                           pools := c.pools[held.node := Released(c.pools[held.node], held.allocation)]);
            d == match c.polls[k].reply.value
                 case NoAnswer => c.(polls := c.polls - {k})
                 case StillRunning => c.(polls := c.polls - {k})
                 case PollFailed => over.(jobs := c.jobs[k := was.(executions := [], state := Failed)])
                 case Exited(code) =>
                   over.(jobs := c.jobs[k := was.(executions := [], exitCode := Some(code),
                                                  state := if c.polls[k].cancelling then JobState.Cancelled
                                                           else if code == 0 then JobState.Succeeded else Failed)])
  {
    var executions := c.jobs[k].executions;
    assert executions == [executions[0]];
    ReleasedSingle(c.pools, executions[0]);
  }

  // Cancelling, storing, starting again

  /** A cancel marks exactly the running jobs of its run. */
  lemma CancelMarks(jobs: map<JobKey, JobInstance>, run: RunId)
    ensures var now := Cancelling(jobs, run);
            && now.Keys == jobs.Keys
            && forall k | k in jobs ::
                 now[k] == if k.run == run && jobs[k].state == Running then jobs[k].(cancelling := true) else jobs[k]
  {
  }

  /** A write makes the job's row, and no other, say what the job is and, while it runs, where and with what. */
  lemma WriteSays(c: Ctl, k: JobKey)
    requires k in c.jobs && |c.jobs[k].executions| <= 1
    ensures Written(c, k) ==
            c.(rows := c.rows[k := Row(c.jobs[k].state,
                                       if c.jobs[k].executions == [] then None else Some(c.jobs[k].executions[0]))],
               toWrite := c.toWrite - {k}, released := c.released - {k})
  {
  }

  /** Taken back is exactly each job of each run with a row that says Pending, Queued or Running. */
  lemma TakenBackIff(c: Ctl, found: set<JobKey>, order: seq<JobKey>, d: Ctl, k: JobKey)
    requires Next(c, Restart(found, order), d)
    ensures k in d.jobs <==>
            && k.run in c.specs && k.job in c.specs[k.run]
            && exists j :: j in c.rows && j.run == k.run && c.rows[j].state in {Pending, Queued, Running}
  {
    if k.run in c.specs && k.job in c.specs[k.run] {
      assert k == JobKey(k.run, k.job) && k in AllKeys(c.specs);
    }
    assert k.run in Unfinished(c.rows) <==>
           exists j :: j in c.rows && j.run == k.run && c.rows[j].state in {Pending, Queued, Running};
  }

  /** A job is what its row says, or Pending without one; but one that ran and was not found is Interrupted, and only the
      found ones hold anything. */
  lemma TakenBackAs(c: Ctl, found: set<JobKey>, order: seq<JobKey>, d: Ctl, k: JobKey)
    requires Next(c, Restart(found, order), d) && k in d.jobs
    ensures k.run in c.specs && k.job in c.specs[k.run] && (k in found ==> k in c.rows && c.rows[k].held.Some?)
    ensures d.jobs[k] == JobInstance(
              c.specs[k.run][k.job],
              if k !in c.rows then Pending
              else if c.rows[k].state == Running && k !in found then Interrupted else c.rows[k].state,
              if k in found then [c.rows[k].held.value] else [], false, None, [])
  {
  }

  /** Rows of jobs that ran and were not found say Interrupted, the others what they said; nothing is under way. */
  lemma TakenBackRows(c: Ctl, found: set<JobKey>, order: seq<JobKey>, d: Ctl)
    requires Next(c, Restart(found, order), d)
    ensures d.rows == map k | k in c.rows :: if c.rows[k].state == Running && k !in found then Row(Interrupted, None)
                                             else c.rows[k]
    ensures d == Ctl(d.jobs, d.pools, map[], map[], map[], Checking, {}, map[], c.specs, d.rows, {})
  {
  }
}

/** A run of two jobs, the second after the first, whose submit a crash cuts short: by its rows it succeeds without the second.
 *  src/ipc/server.rs, src/store/mod.rs, src/daemon/recover.rs. */
module TwoJobs {
  import opened Wrappers
  import opened Spec
  import opened Pool
  import opened Placement
  import opened Model
  import opened Controller
  import opened Recovery
  import opened StoredRuns
  import O = OneJob
  import Dag

  const RUN := O.RUN
  const FIRST := O.KEY
  const SECOND := JobKey(O.RUN, JobId("second"))
  const LATER := JobSpec(SECOND.job, [FIRST.job], O.WANTED)
  const SPECS: seq<JobSpec> := [O.SPEC, LATER]
  const WORKFLOW: Workflow := map[FIRST.job := O.SPEC, SECOND.job := LATER]

  ghost predicate Reachable(c: Ctl) {
    exists states, steps :: IsRun(states, steps) && states[|steps|] == c
  }

  lemma ReachFirst(c: Ctl)
    requires Init(c)
    ensures Reachable(c)
  {
    var states: seq<Ctl>, steps: seq<Step> := [c], [];
    assert IsRun(states, steps) && states[|steps|] == c;
  }

  lemma ReachNext(c: Ctl, step: Step, d: Ctl)
    requires Reachable(c) && Next(c, step, d)
    ensures Reachable(d)
  {
    var states, steps :| IsRun(states, steps) && states[|steps|] == c;
    OneStepMore(states, steps, step, d);
    assert (states + [d])[|steps + [step]|] == d;
  }

  lemma OneStepMore(states: seq<Ctl>, steps: seq<Step>, step: Step, d: Ctl)
    requires IsRun(states, steps) && Next(states[|steps|], step, d)
    ensures IsRun(states + [d], steps + [step])
  {
    forall i | 0 <= i < |steps + [step]| ensures Next((states + [d])[i], (steps + [step])[i], (states + [d])[i + 1]) {
      if i < |steps| {
        assert Next(states[i], steps[i], states[i + 1]);
      }
    }
  }

  // Submitted in part

  lemma SpecsAreValid()
    ensures Dag.Valid(SPECS) && ById(SPECS) == WORKFLOW
  {
    assert SPECS[0] == O.SPEC && SPECS[1] == LATER;
    assert SPECS[0].id != SPECS[1].id by { assert |SPECS[0].id.name| != |SPECS[1].id.name|; }
    assert forall job | job in SPECS :: job == O.SPEC || job == LATER;
    assert Dag.Ids(SPECS) == {FIRST.job, SECOND.job};
    var g := Dag.GraphOf(SPECS);
    assert g[FIRST.job] == [] && g[SECOND.job] == [FIRST.job];
    InThisOrder(g);
  }

  lemma InThisOrder(g: Dag.Graph)
    requires FIRST.job != SECOND.job && g == map[FIRST.job := [], SECOND.job := [FIRST.job]]
    ensures Dag.Acyclic(g)
  {
    var order := [FIRST.job, SECOND.job];
    assert Dag.ComesAfterDeps(g, order, 0);
    assert order[..1] == [FIRST.job] && Dag.ComesAfterDeps(g, order, 1);
    assert Dag.SetOf(order) == {FIRST.job, SECOND.job} == g.Keys;
    Dag.OrderMeansAcyclic(g, order);
  }

  function Accepted(rows: map<JobKey, Row>): Ctl {
    O.Empty().(specs := map[RUN := WORKFLOW], submitting := {RUN}, rows := rows)
  }

  lemma Accepts()
    ensures Next(O.Empty(), Client(SubmitAccept(RUN, SPECS)), Accepted(map[]))
  {
    SpecsAreValid();
    O.WantedFits();
  }

  /** Both jobs in memory, and one row. */
  function Both(first: JobInstance, second: JobInstance, row: Row, phase: Phase): Ctl {
    Ctl(map[FIRST := first, SECOND := second], O.FREE, map[], map[], map[], phase, {}, map[], map[RUN := WORKFLOW],
        map[FIRST := row], {})
  }

  /** The first job this far and stored so, the second waiting. */
  function Waiting(state: JobState, phase: Phase): Ctl {
    Both(O.Job(state), NewJob(LATER), Row(state, None), phase)
  }

  const ONE_ROW: map<JobKey, Row> := map[FIRST := Row(Pending, None)]

  /** The crash comes after the first job's row and before the second's. */
  lemma SubmitIsCutShort()
    ensures Next(Accepted(ONE_ROW), Restart({}, []), Waiting(Pending, Checking))
  {
    var c := Accepted(ONE_ROW);
    assert Dag.SetOf<JobKey>([]) == {};
    assert CanRestart(c, {}, []);
    assert FreshPools(O.FREE) == O.FREE;
    assert FIRST in c.rows && RUN in Unfinished(c.rows);
    assert Unfinished(c.rows) == {RUN};
    AllKeysAre();
    assert RestoredJobs(c, {}) == map[FIRST := O.Job(Pending), SECOND := NewJob(LATER)];
    assert InterruptedRows(c.rows, {}) == c.rows;
  }

  lemma AllKeysAre()
    ensures AllKeys(map[RUN := WORKFLOW]) == {FIRST, SECOND}
  {
  }

  lemma TakenBackJobs()
    ensures Reachable(Waiting(Pending, Checking))
  {
    ReachFirst(O.Empty());
    Accepts();
    ReachNext(O.Empty(), Client(SubmitAccept(RUN, SPECS)), Accepted(map[]));
    assert Next(Accepted(map[]), Client(SubmitRow(FIRST)), Accepted(ONE_ROW));
    ReachNext(Accepted(map[]), Client(SubmitRow(FIRST)), Accepted(ONE_ROW));
    SubmitIsCutShort();
    ReachNext(Accepted(ONE_ROW), Restart({}, []), Waiting(Pending, Checking));
  }

  // The first job runs

  function Listed(c: Ctl, k: JobKey, row: Row): Ctl {
    c.(toWrite := {k}, rows := map[FIRST := row])
  }

  /** What was listed is written. */
  lemma FirstIsWritten(c: Ctl, row: Row)
    requires FIRST in c.jobs && c.toWrite == {} && c.released == map[] && c.rows == map[FIRST := RowOf(c.jobs[FIRST])]
    ensures Next(Listed(c, FIRST, row), Flush(FIRST), c)
  {
    var listed := Listed(c, FIRST, row);
    assert listed.toWrite - {FIRST} == {} && listed.released - {FIRST} == map[];
    assert listed.rows[FIRST := RowOf(c.jobs[FIRST])] == c.rows;
  }

  lemma FirstQueues()
    ensures Next(Waiting(Pending, Checking), Admit(AdvancePending),
                 Listed(Waiting(Queued, Cascading), FIRST, Row(Pending, None)))
  {
    var jobs := Waiting(Pending, Checking).jobs;
    assert !DepsSucceeded(jobs, SECOND) by { assert FIRST.job in LATER.dependsOn; }
    assert ToQueue(jobs) == {FIRST};
    assert WithState(jobs, {FIRST}, Queued) == Waiting(Queued, Cascading).jobs;
  }

  lemma NothingSkipped()
    ensures Next(Waiting(Queued, Cascading), Admit(CascadeSkipped), Waiting(Queued, Reserving))
  {
    var jobs := Waiting(Queued, Cascading).jobs;
    assert ToSkip(jobs) == {};
    assert WithState(jobs, {}, Skipped) == jobs;
  }

  lemma FirstQueued()
    ensures Reachable(Waiting(Queued, Reserving))
  {
    TakenBackJobs();
    FirstQueues();
    var listed := Listed(Waiting(Queued, Cascading), FIRST, Row(Pending, None));
    ReachNext(Waiting(Pending, Checking), Admit(AdvancePending), listed);
    FirstIsWritten(Waiting(Queued, Cascading), Row(Pending, None));
    ReachNext(listed, Flush(FIRST), Waiting(Queued, Cascading));
    NothingSkipped();
    ReachNext(Waiting(Queued, Cascading), Admit(CascadeSkipped), Waiting(Queued, Reserving));
  }

  /** Reserved, and being launched. */
  function BeingLaunched(result: Option<LaunchResult>, phase: Phase): Ctl {
    Waiting(Queued, phase).(pools := O.TAKEN, tasks := map[FIRST := AdmitTask(O.HELD, result)])
  }

  lemma Reserves()
    ensures CanReserve(Waiting(Queued, Reserving), FIRST, [true], O.HELD)
  {
    O.Reserves();
  }

  lemma FirstReserved()
    ensures Reachable(BeingLaunched(None, Reserving))
  {
    FirstQueued();
    Reserves();
    ReachNext(Waiting(Queued, Reserving), Admit(ReserveJob(FIRST, [true], O.HELD)), BeingLaunched(None, Reserving));
  }

  lemma FirstLaunched()
    ensures Reachable(BeingLaunched(Some(Launched), ApplyingLaunches))
  {
    FirstReserved();
    ReachNext(BeingLaunched(None, Reserving), Admit(StartLaunching), BeingLaunched(None, Launching));
    ReachNext(BeingLaunched(None, Launching), Admit(LaunchDone(FIRST, Launched)), BeingLaunched(Some(Launched), Launching));
    ReachNext(BeingLaunched(Some(Launched), Launching), Admit(StartApplying),
              BeingLaunched(Some(Launched), ApplyingLaunches));
  }

  function RunningNow(phase: Phase, polls: map<JobKey, PollEntry>): Ctl {
    Both(O.Job(Running).(executions := [O.HELD]), NewJob(LATER), Row(Running, Some(O.HELD)), phase)
    .(pools := O.TAKEN, polls := polls)
  }

  lemma Applies()
    ensures Next(BeingLaunched(Some(Launched), ApplyingLaunches), Admit(ApplyLaunch(FIRST)),
                 Listed(RunningNow(ApplyingLaunches, map[]), FIRST, Row(Queued, None)))
  {
    var c := BeingLaunched(Some(Launched), ApplyingLaunches);
    assert c.tasks - {FIRST} == map[];
  }

  const ASKED := PollEntry(false, None)
  const EXITED := PollEntry(false, Some(Exited(0)))

  lemma Snaps()
    ensures Next(RunningNow(Snapshotting, map[]), Poll(Snapshot), RunningNow(Polling, map[FIRST := ASKED]))
  {
    assert Snapshots(RunningNow(Snapshotting, map[]).jobs) == map[FIRST := ASKED];
  }

  lemma FirstRunning()
    ensures Reachable(RunningNow(Snapshotting, map[]))
  {
    FirstLaunched();
    Applies();
    var listed := Listed(RunningNow(ApplyingLaunches, map[]), FIRST, Row(Queued, None));
    ReachNext(BeingLaunched(Some(Launched), ApplyingLaunches), Admit(ApplyLaunch(FIRST)), listed);
    FirstIsWritten(RunningNow(ApplyingLaunches, map[]), Row(Queued, None));
    ReachNext(listed, Flush(FIRST), RunningNow(ApplyingLaunches, map[]));
    ReachNext(RunningNow(ApplyingLaunches, map[]), Admit(EndApplying), RunningNow(Snapshotting, map[]));
  }

  lemma FirstAsked()
    ensures Reachable(RunningNow(Polling, map[FIRST := ASKED]))
  {
    FirstRunning();
    Snaps();
    ReachNext(RunningNow(Snapshotting, map[]), Poll(Snapshot), RunningNow(Polling, map[FIRST := ASKED]));
  }

  lemma FirstPolled()
    ensures Reachable(RunningNow(ApplyingPolls, map[FIRST := EXITED]))
  {
    FirstAsked();
    ReachNext(RunningNow(Polling, map[FIRST := ASKED]), Poll(PollDone(FIRST, Exited(0))),
              RunningNow(Polling, map[FIRST := EXITED]));
    ReachNext(RunningNow(Polling, map[FIRST := EXITED]), Poll(StartApplyingPolls),
              RunningNow(ApplyingPolls, map[FIRST := EXITED]));
  }

  /** The first job succeeded and is stored so; the second is not stored. */
  function FirstDone(second: JobState, phase: Phase): Ctl {
    Both(O.Job(JobState.Succeeded).(exitCode := Some(0)), NewJob(LATER).(state := second), Row(JobState.Succeeded, None),
         phase)
  }

  lemma Ends()
    ensures Next(RunningNow(ApplyingPolls, map[FIRST := EXITED]), Poll(ApplyPoll(FIRST)),
                 Listed(FirstDone(Pending, ApplyingPolls), FIRST, Row(Running, Some(O.HELD)))
                 .(released := map[FIRST := O.HELD]))
  {
    var c := RunningNow(ApplyingPolls, map[FIRST := EXITED]);
    assert c.polls - {FIRST} == map[];
    ReleasesAll();
  }

  lemma ReleasesAll()
    ensures ReleasedAll(O.TAKEN, [O.HELD]) == O.FREE
  {
    assert Released(O.TAKEN[0], O.HELD.allocation) == O.FREE[0];
    assert ReleasedAt(O.TAKEN, O.HELD) == O.FREE;
    assert ReleasedAll(O.TAKEN, [O.HELD]) == ReleasedAll(ReleasedAt(O.TAKEN, O.HELD), []);
  }

  lemma EndIsWritten()
    ensures Next(Listed(FirstDone(Pending, ApplyingPolls), FIRST, Row(Running, Some(O.HELD)))
                 .(released := map[FIRST := O.HELD]), Flush(FIRST), FirstDone(Pending, ApplyingPolls))
  {
    var listed := Listed(FirstDone(Pending, ApplyingPolls), FIRST, Row(Running, Some(O.HELD)))
                  .(released := map[FIRST := O.HELD]);
    assert listed.released - {FIRST} == map[] && listed.toWrite - {FIRST} == {};
  }

  lemma FirstSucceeded()
    ensures Reachable(FirstDone(Pending, ApplyingPolls))
    ensures RowsSucceeded(FirstDone(Pending, ApplyingPolls).rows, RUN)
  {
    FirstPolled();
    Ends();
    EndIsWritten();
    var listed := Listed(FirstDone(Pending, ApplyingPolls), FIRST, Row(Running, Some(O.HELD)))
                  .(released := map[FIRST := O.HELD]);
    ReachNext(RunningNow(ApplyingPolls, map[FIRST := EXITED]), Poll(ApplyPoll(FIRST)), listed);
    ReachNext(listed, Flush(FIRST), FirstDone(Pending, ApplyingPolls));
    assert FIRST in FirstDone(Pending, ApplyingPolls).rows;
  }

  // What becomes of the second

  lemma SecondQueues()
    ensures Next(FirstDone(Pending, Checking), Admit(AdvancePending), FirstDone(Queued, Cascading).(toWrite := {SECOND}))
  {
    var jobs := FirstDone(Pending, Checking).jobs;
    assert HasSucceeded(jobs, FIRST) && DepsSucceeded(jobs, SECOND);
    assert ToQueue(jobs) == {SECOND};
    assert WithState(jobs, {SECOND}, Queued) == FirstDone(Queued, Cascading).jobs;
  }

  /** From an empty controller on: a run that counts as Succeeded by its rows, and not any more after the next write. */
  lemma SucceededRunReopens() returns (c: Ctl, d: Ctl)
    ensures Reachable(c) && Next(c, Flush(SECOND), d) && Reopens(c, Flush(SECOND), RUN)
    ensures RowsSucceeded(c.rows, RUN) && RowStates(d.rows, RUN) == {JobState.Succeeded, Queued}
  {
    FirstSucceeded();
    ReachNext(FirstDone(Pending, ApplyingPolls), Poll(EndPolls), FirstDone(Pending, Checking));
    SecondQueues();
    c := FirstDone(Queued, Cascading).(toWrite := {SECOND});
    ReachNext(FirstDone(Pending, Checking), Admit(AdvancePending), c);
    d := Written(c, SECOND);
    TwoRows(d.rows);
  }

  lemma TwoRows(rows: map<JobKey, Row>)
    requires rows == map[FIRST := Row(JobState.Succeeded, None), SECOND := Row(Queued, None)]
    ensures RowStates(rows, RUN) == {JobState.Succeeded, Queued}
  {
    assert rows[SECOND].state in RowStates(rows, RUN);
    assert FIRST.job.name != SECOND.job.name by { assert |FIRST.job.name| != |SECOND.job.name|; }
    assert rows[FIRST].state in RowStates(rows, RUN);
  }

  /** With a second crash in between, the second job never runs, and the run counts as Succeeded in every state of every
      run that goes on from there. */
  lemma SecondJobIsLost() returns (c: Ctl)
    ensures Reachable(c) && Dropped(c, RUN) && RowsSucceeded(c.rows, RUN)
    ensures SECOND.job in c.specs[RUN] && SECOND !in c.jobs && SECOND !in c.rows
  {
    FirstSucceeded();
    var before := FirstDone(Pending, ApplyingPolls);
    c := Recovered(before, {}, []);
    assert Dag.SetOf<JobKey>([]) == {};
    assert CanRestart(before, {}, []);
    ReachNext(before, Restart({}, []), c);
    assert before.rows == map[FIRST := Row(JobState.Succeeded, None)];
    assert Unfinished(before.rows) == {};
    assert c.jobs == map[];
    assert FIRST in c.rows;
  }
}

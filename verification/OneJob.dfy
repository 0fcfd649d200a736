/** One job on one node, from an empty controller to its first poll, and what a failed check then does. */
module OneJob {
  import opened Wrappers
  import opened Spec
  import opened Pool
  import opened Placement
  import opened Model
  import opened Controller
  import opened Ledger
  import opened Executor
  import opened Protocol
  import Dag

  const NODE := SystemResources(1, 512, [])
  const RUN := RunId("run")
  const JOB := JobId("job")
  const KEY := JobKey(RUN, JOB)
  const WANTED := ResourceSpec(1, 512, 0, 0)
  const SPEC := JobSpec(JOB, [], WANTED)
  const WORKFLOW: Workflow := map[JOB := SPEC]
  const HELD := Placed(0, Allocation(1, 512, []))

  ghost predicate ReachableSys(s: Sys) {
    exists states, steps :: IsSysRun(states, steps) && states[|steps|] == s
  }

  lemma ReachFirst(s: Sys)
    requires SysInit(s)
    ensures ReachableSys(s)
  {
    var states: seq<Sys>, steps: seq<SysStep> := [s], [];
    assert IsSysRun(states, steps) && states[|steps|] == s;
  }

  lemma ReachNext(s: Sys, step: SysStep, t: Sys)
    requires ReachableSys(s) && SysNext(s, step, t)
    ensures ReachableSys(t)
  {
    var states, steps :| IsSysRun(states, steps) && states[|steps|] == s;
    var states', steps' := states + [t], steps + [step];
    forall i | 0 <= i < |steps'| ensures SysNext(states'[i], steps'[i], states'[i + 1]) {
      if i < |steps| {
        assert SysNext(states[i], steps[i], states[i + 1]);
      }
    }
    assert IsSysRun(states', steps') && states'[|steps'|] == t;
  }

  /** The whole, with no request under way. */
  ghost function Quiet(c: Ctl): Sys {
    Sys(c, map[], {}, map[], {}, {}, multiset{}, {}, {})
  }

  lemma ReachInside(c: Ctl, step: Step, d: Ctl)
    requires ReachableSys(Quiet(c)) && AsksNoNode(step) && Next(c, step, d)
    ensures ReachableSys(Quiet(d))
  {
    ReachNext(Quiet(c), Inside(step), Quiet(d));
  }

  // The controller's states

  const FREE: seq<PoolState> := [NewPool(NODE)]
  const TAKEN: seq<PoolState> := [Booked(NewPool(NODE), HELD.allocation)]

  function Job(state: JobState): JobInstance {
    NewJob(SPEC).(state := state)
  }

  function Empty(): Ctl {
    Ctl(map[], FREE, map[], map[], map[], Checking, {}, map[], map[], map[], {})
  }

  /** Submitted, with its row stored. */
  function TakenIn(state: JobState, phase: Phase): Ctl {
    Ctl(map[KEY := Job(state)], FREE, map[], map[], map[], phase, {}, map[], map[RUN := WORKFLOW],
        map[KEY := Row(state, None)], {})
  }

  lemma SpecIsValid()
    ensures Dag.Valid([SPEC]) && ById([SPEC]) == WORKFLOW
  {
    var jobs := [SPEC];
    assert jobs[0] == SPEC && forall job | job in jobs :: job == SPEC;
    var g := Dag.GraphOf(jobs);
    assert g[JOB] == [];
    assert Dag.ComesAfterDeps(g, [JOB], 0);
    assert Dag.SetOf([JOB]) == {JOB} == g.Keys;
    Dag.OrderMeansAcyclic(g, [JOB]);
  }

  lemma WantedFits()
    ensures FitsSomewhere(FREE, WANTED)
  {
    var options := GpuOptions(WANTED);
    assert options[0] == WANTED && WANTED in options;
    assert CouldFit(NODE, WANTED) && FREE[0].total == NODE;
    assert CouldGoTo(FREE, WANTED, 0);
  }

  lemma WorkflowIsAcceptable()
    ensures Acceptable(Empty(), [SPEC]) && ById([SPEC]) == WORKFLOW
  {
    SpecIsValid();
    WantedFits();
  }

  lemma Accepts()
    ensures Next(Empty(), Client(SubmitAccept(RUN, [SPEC])), Accepted())
  {
    WorkflowIsAcceptable();
  }

  function Accepted(): Ctl {
    Empty().(specs := map[RUN := WORKFLOW], submitting := {RUN})
  }

  function Stored(): Ctl {
    Accepted().(rows := map[KEY := Row(Pending, None)])
  }

  lemma StoresRow()
    ensures Next(Accepted(), Client(SubmitRow(KEY)), Stored())
  {
  }

  lemma Inserts()
    ensures Next(Stored(), Client(SubmitInsert(RUN)), TakenIn(Pending, Checking))
  {
    assert Keys(RUN, WORKFLOW) == {KEY};
    assert Submitted(Stored(), RUN) == map[KEY := Job(Pending)];
  }

  lemma EmptyIsFirst()
    ensures ReachableSys(Quiet(Empty()))
  {
    ReachFirst(Quiet(Empty()));
  }

  lemma SubmittedJob()
    ensures ReachableSys(Quiet(TakenIn(Pending, Checking)))
  {
    EmptyIsFirst();
    Accepts();
    StoresRow();
    Inserts();
    ReachInside(Empty(), Client(SubmitAccept(RUN, [SPEC])), Accepted());
    ReachInside(Accepted(), Client(SubmitRow(KEY)), Stored());
    ReachInside(Stored(), Client(SubmitInsert(RUN)), TakenIn(Pending, Checking));
  }

  function JustQueued(): Ctl {
    TakenIn(Queued, Cascading).(toWrite := {KEY}, rows := map[KEY := Row(Pending, None)])
  }

  lemma Queues()
    ensures Next(TakenIn(Pending, Checking), Admit(AdvancePending), JustQueued())
  {
    var jobs := TakenIn(Pending, Checking).jobs;
    assert ToQueue(jobs) == {KEY};
    assert WithState(jobs, {KEY}, Queued) == map[KEY := Job(Queued)];
  }

  lemma QueueingIsWritten()
    ensures Next(JustQueued(), Flush(KEY), TakenIn(Queued, Cascading))
  {
    assert JustQueued().released - {KEY} == map[];
  }

  /** Its dependencies, of which there are none, succeeded: queued, written, and not skipped. */
  lemma QueuedJob()
    ensures ReachableSys(Quiet(TakenIn(Queued, Reserving)))
  {
    SubmittedJob();
    Queues();
    ReachInside(TakenIn(Pending, Checking), Admit(AdvancePending), JustQueued());
    QueueingIsWritten();
    ReachInside(JustQueued(), Flush(KEY), TakenIn(Queued, Cascading));
    NothingSkipped();
    ReachInside(TakenIn(Queued, Cascading), Admit(CascadeSkipped), TakenIn(Queued, Reserving));
  }

  lemma NothingSkipped()
    ensures Next(TakenIn(Queued, Cascading), Admit(CascadeSkipped), TakenIn(Queued, Reserving))
  {
    var jobs := TakenIn(Queued, Cascading).jobs;
    assert ToSkip(jobs) == {};
    assert WithState(jobs, {}, Skipped) == jobs;
  }

  /** Reserved on the node, and being launched. */
  function BeingLaunched(result: Option<LaunchResult>, phase: Phase): Ctl {
    TakenIn(Queued, phase).(pools := TAKEN, tasks := map[KEY := AdmitTask(HELD, result)])
  }

  lemma Reserves()
    ensures CanReserve(TakenIn(Queued, Reserving), KEY, [true], HELD)
  {
    var usable := Usable([true], Job(Queued));
    assert usable == [true];
    var options := GpuOptions(WANTED);
    assert options == [WANTED];
    assert Reserve(FREE[0], WANTED) == Some(HELD.allocation);
    assert FirstNode(FREE, usable, WANTED, 0) == Some(HELD);
    assert PlaceMember(FREE, usable, WANTED) == Some(HELD);
    PlaceSingle(FREE, usable, WANTED);
  }

  lemma ReservedJob()
    ensures ReachableSys(Quiet(BeingLaunched(None, Launching)))
  {
    QueuedJob();
    Reserves();
    ReachInside(TakenIn(Queued, Reserving), Admit(ReserveJob(KEY, [true], HELD)), BeingLaunched(None, Reserving));
    ReachInside(BeingLaunched(None, Reserving), Admit(StartLaunching), BeingLaunched(None, Launching));
  }

  const SPOT := Spot(0, KEY)

  /** The process is there, and no request or reply is under way. */
  ghost function WithProcess(c: Ctl): Sys {
    Sys(c, map[SPOT := STARTED], {}, map[], {}, {}, multiset{KEY}, {}, {})
  }

  ghost function Sent(): Sys {
    Quiet(BeingLaunched(None, Launching)).(sent := {KEY}, wire := {SPOT})
  }

  ghost function Arrived(): Sys {
    Sys(BeingLaunched(None, Launching), map[SPOT := STARTED], {}, map[SPOT := LaunchedReply], {KEY}, {},
        multiset{KEY}, {}, {})
  }

  lemma Sends()
    ensures SysNext(Quiet(BeingLaunched(None, Launching)), Send(KEY), Sent())
  {
  }

  lemma ArrivesThere()
    ensures SysNext(Sent(), Arrive(SPOT, Starts), Arrived())
  {
  }

  lemma Replies()
    ensures SysNext(Arrived(), ReplyCame(KEY), WithProcess(BeingLaunched(Some(Launched), Launching)))
  {
  }

  lemma StartedJob()
    ensures ReachableSys(WithProcess(BeingLaunched(Some(Launched), Launching)))
  {
    ReservedJob();
    Sends();
    ArrivesThere();
    Replies();
    ReachNext(Quiet(BeingLaunched(None, Launching)), Send(KEY), Sent());
    ReachNext(Sent(), Arrive(SPOT, Starts), Arrived());
    ReachNext(Arrived(), ReplyCame(KEY), WithProcess(BeingLaunched(Some(Launched), Launching)));
  }

  lemma ReachStarted(c: Ctl, step: Step, d: Ctl)
    requires ReachableSys(WithProcess(c)) && AsksNoNode(step) && Next(c, step, d)
    ensures ReachableSys(WithProcess(d))
  {
    ReachNext(WithProcess(c), Inside(step), WithProcess(d));
  }

  /** Running, with its row stored. */
  function RunningNow(phase: Phase, polls: map<JobKey, PollEntry>): Ctl {
    var job := Job(Running).(executions := [HELD]);
    Ctl(map[KEY := job], TAKEN, map[], polls, map[], phase, {}, map[], map[RUN := WORKFLOW], map[KEY := Row(Running,
        Some(HELD))], {})
  }

  lemma RunningJob()
    ensures ReachableSys(WithProcess(RunningNow(Snapshotting, map[])))
  {
    StartedJob();
    var launched, applying := BeingLaunched(Some(Launched), Launching), BeingLaunched(Some(Launched), ApplyingLaunches);
    assert Next(launched, Admit(StartApplying), applying);
    ReachStarted(launched, Admit(StartApplying), applying);
    Applies();
    ReachStarted(applying, Admit(ApplyLaunch(KEY)), Applied());
    AppliedIsWritten();
    ReachStarted(Applied(), Flush(KEY), RunningNow(ApplyingLaunches, map[]));
    ReachStarted(RunningNow(ApplyingLaunches, map[]), Admit(EndApplying), RunningNow(Snapshotting, map[]));
  }

  function Polled(): Ctl {
    RunningNow(Polling, map[KEY := PollEntry(false, None)])
  }

  lemma PolledJob()
    ensures ReachableSys(WithProcess(Polled()))
  {
    RunningJob();
    assert Snapshots(RunningNow(Snapshotting, map[]).jobs) == map[KEY := PollEntry(false, None)];
    ReachStarted(RunningNow(Snapshotting, map[]), Poll(Snapshot), Polled());
  }

  function Applied(): Ctl {
    RunningNow(ApplyingLaunches, map[]).(toWrite := {KEY}, rows := map[KEY := Row(Queued, None)])
  }

  lemma AppliedIsWritten()
    ensures Next(Applied(), Flush(KEY), RunningNow(ApplyingLaunches, map[]))
  {
    assert Applied().released - {KEY} == map[];
  }

  lemma Applies()
    ensures Next(BeingLaunched(Some(Launched), ApplyingLaunches), Admit(ApplyLaunch(KEY)),
                 Applied())
  {
    var c := BeingLaunched(Some(Launched), ApplyingLaunches);
    assert c.tasks - {KEY} == map[];
  }

  /** A run in which a living process, misjudged by its node, ends up with nothing booked for it. */
  lemma MisjudgedProcessGetsReleased(process: Process, check: Check) returns (s: Sys)
    requires Misjudges(process, check)
    requires ReachableSys(WithProcess(Polled()).(processes := map[SPOT := process]))
    ensures ReachableSys(s) && s.processes == map[SPOT := process] && !BookedAtNode(s.ctl, KEY, 0)
  {
    var polled := WithProcess(Polled()).(processes := map[SPOT := process]);
    assert JobSpot(polled, KEY) == SPOT;
    var asked, applying, freed := MisjudgedProcessIsReleased(polled, KEY, check);
    ReachNext(polled, PollAnswered(KEY, check), asked);
    ReachNext(asked, Inside(Poll(StartApplyingPolls)), applying);
    ReachNext(applying, Inside(Poll(ApplyPoll(KEY))), freed);
    s := freed;
  }

  /** From nothing, by a check that fails with an error. */
  lemma UncheckedProcessGetsReleased() returns (s: Sys)
    ensures ReachableSys(s) && SPOT in s.processes && s.processes[SPOT].Alive? && !BookedAtNode(s.ctl, KEY, 0)
  {
    PolledJob();
    s := MisjudgedProcessGetsReleased(STARTED, Fails);
  }

  /** From nothing, by a check that finds nothing once the daemon of the node can't wait for the process any more. */
  lemma UnseenProcessGetsReleased() returns (s: Sys)
    ensures ReachableSys(s) && SPOT in s.processes && s.processes[SPOT].Alive? && !BookedAtNode(s.ctl, KEY, 0)
  {
    PolledJob();
    var polled, now := WithProcess(Polled()), Alive(true, false);
    ReachNext(polled, ProcessChanges(SPOT, now), polled.(processes := map[SPOT := now]));
    s := MisjudgedProcessGetsReleased(now, FindsNothing);
  }

  /** Started again with nothing found, `processes` on the node and `late` requests under way. */
  ghost function StartedAgain(before: Ctl, processes: map<Spot, Process>, late: set<Spot>): Sys {
    var c := Recovered(before, {}, []);
    Sys(c, processes, {}, map[], {}, late, multiset{}, {}, UnclaimedProcesses(c, processes))
  }

  lemma NoneFound(c: Ctl)
    ensures Next(c, Restart({}, []), Recovered(c, {}, []))
  {
    assert Dag.SetOf<JobKey>([]) == {};
  }

  /** A crash between a launch and the write of its section: the process lives on, its row says Queued, and nothing is
      booked for it. */
  lemma UnwrittenLaunchIsLost() returns (s: Sys)
    ensures ReachableSys(s) && SPOT in s.processes && s.processes[SPOT].Alive? && !BookedAtNode(s.ctl, KEY, 0)
    ensures KEY in s.ctl.jobs && s.ctl.jobs[KEY].state.Queued?
  {
    StartedJob();
    var before := WithProcess(BeingLaunched(Some(Launched), Launching));
    s := StartedAgain(before.ctl, before.processes, {});
    RestartsQueued(Some(Launched));
    NoneFound(before.ctl);
    ReachNext(before, Crash({}, [], {}), s);
  }

  /** A crash while the request is under way: it arrives when the controller has started again, and starts the process
      with nothing booked for it. */
  lemma LateRequestStartsUnbooked() returns (s: Sys)
    ensures ReachableSys(s) && SPOT in s.processes && s.processes[SPOT].Alive? && !BookedAtNode(s.ctl, KEY, 0)
    ensures s.strays == {SPOT} && KEY in s.ctl.jobs && s.ctl.jobs[KEY].state.Queued?
  {
    ReservedJob();
    Sends();
    ReachNext(Quiet(BeingLaunched(None, Launching)), Send(KEY), Sent());
    var crashed := StartedAgain(Sent().ctl, map[], {SPOT});
    RestartsQueued(None);
    NoneFound(Sent().ctl);
    ReachNext(Sent(), Crash({}, [], {SPOT}), crashed);
    s := crashed.(processes := map[SPOT := STARTED], late := {}, strays := {SPOT});
    ArrivesAfterwards(crashed, s);
    ReachNext(crashed, ArriveLate(SPOT, Starts), s);
  }

  lemma ArrivesAfterwards(s: Sys, t: Sys)
    requires s.late == {SPOT} && s.processes == map[] && s.strays == {}
    requires t == s.(processes := map[SPOT := STARTED], late := {}, strays := {SPOT})
    ensures SysNext(s, ArriveLate(SPOT, Starts), t)
  {
    assert s.late - {SPOT} == {} && s.strays + {SPOT} == {SPOT};
  }

  lemma RestartsQueued(result: Option<LaunchResult>)
    ensures var c := Recovered(BeingLaunched(result, Launching), {}, []);
            c.tasks == map[] && KEY in c.jobs && c.jobs[KEY] == Job(Queued)
  {
    var c := BeingLaunched(result, Launching);
    assert KEY in c.rows && !c.rows[KEY].state.IsTerminal();
    assert RUN in Unfinished(c.rows);
    assert KEY == JobKey(RUN, JOB) && KEY in AllKeys(c.specs);
  }
}

/** The controller as a state machine: src/scheduler/mod.rs, src/ipc/server.rs and src/daemon/recover.rs.
 *
 *  A tick runs four phases in order; a phase drops its locks between reserving, launching and applying, so submits and
 *  cancels come in between. A step is one lock-held section, or a piece of one where the code loops over jobs in a
 *  HashMap's order: any order of the pieces is allowed. What a remote or local executor answers is left open here. */
module Controller {
  import opened Wrappers
  import opened Spec
  import opened Pool
  import opened Placement
  import opened Model
  import Dag

  datatype RunId = RunId(name: string)

  datatype JobKey = JobKey(run: RunId, job: JobId)

  /** A run's spec, its jobs by id. */
  type Workflow = map<JobId, JobSpec>

  /** A job's row in the store; its node and allocation only while it runs. */
  datatype Row = Row(state: JobState, held: Option<Execution>)

  datatype LaunchResult =
    | Launched
    | Unreachable  // the request never left
    | TurnedDown   // the node refused
    | LaunchFailed // any other error

  datatype PollReply = NoAnswer | PollFailed | StillRunning | Exited(code: int)

  /** A job with resources reserved, on its way to a node. */
  datatype AdmitTask = AdmitTask(placed: Placed, result: Option<LaunchResult>)

  datatype PollEntry = PollEntry(cancelling: bool, reply: Option<PollReply>)

  /** What the scheduler task does next. */
  datatype Phase =
    | Checking         // between ticks: GPU checks, then Pending -> Queued
    | Cascading
    | Reserving
    | Launching
    | ApplyingLaunches
    | Snapshotting
    | Polling
    | ApplyingPolls

  /** `jobs` is the code's runs map with each run's jobs map flattened into it.
   *  `released` remembers, for jobs that ended but whose row still says Running, what they held. */
  datatype Ctl = Ctl(
    jobs: map<JobKey, JobInstance>,
    pools: seq<PoolState>,
    tasks: map<JobKey, AdmitTask>,
    polls: map<JobKey, PollEntry>,
    qualifying: map<nat, Placed>,
    phase: Phase,
    toWrite: set<JobKey>,
    released: map<JobKey, Execution>,
    specs: map<RunId, Workflow>,
    rows: map<JobKey, Row>,
    submitting: set<RunId>)

  // Submitting

  function ById(jobs: seq<JobSpec>): (w: Workflow)
    requires Dag.UniqueIds(jobs)
    ensures w.Keys == Dag.Ids(jobs)
    ensures forall job | job in jobs :: w[job.id] == job
  {
    map job | job in jobs :: job.id := job
  }

  /** Some node could take one of the job's options by its totals. */
  predicate CouldGoTo(pools: seq<PoolState>, resources: ResourceSpec, node: nat) {
    node < |pools| && exists option | option in GpuOptions(resources) :: CouldFit(pools[node].total, option)
  }

  predicate FitsSomewhere(pools: seq<PoolState>, resources: ResourceSpec) {
    exists node | 0 <= node < |pools| :: CouldGoTo(pools, resources, node)
  }

  predicate CouldGoElsewhere(pools: seq<PoolState>, job: JobInstance) {
    exists node | 0 <= node < |pools| :: !RejectedBy(job, node) && CouldGoTo(pools, job.spec.resources, node)
  }

  /** The submit handler's checks. */
  ghost predicate Acceptable(c: Ctl, jobs: seq<JobSpec>) {
    Dag.Valid(jobs) && forall job | job in jobs :: FitsSomewhere(c.pools, job.resources)
  }

  function Keys(run: RunId, w: Workflow): set<JobKey> {
    set id | id in w :: JobKey(run, id)
  }

  function AllKeys(specs: map<RunId, Workflow>): set<JobKey> {
    set run, id | run in specs && id in specs[run] :: JobKey(run, id)
  }

  // Dependencies

  predicate HasSucceeded(jobs: map<JobKey, JobInstance>, k: JobKey) {
    k in jobs && jobs[k].state.Succeeded?
  }

  predicate HasEndedBadly(jobs: map<JobKey, JobInstance>, k: JobKey) {
    k in jobs && jobs[k].state.EndedBadly()
  }

  predicate DepsSucceeded(jobs: map<JobKey, JobInstance>, k: JobKey)
    requires k in jobs
  {
    forall dep | dep in jobs[k].spec.dependsOn :: HasSucceeded(jobs, JobKey(k.run, dep))
  }

  predicate SomeDepBad(jobs: map<JobKey, JobInstance>, k: JobKey)
    requires k in jobs
  {
    exists dep | dep in jobs[k].spec.dependsOn :: HasEndedBadly(jobs, JobKey(k.run, dep))
  }

  function ToQueue(jobs: map<JobKey, JobInstance>): set<JobKey> {
    set k | k in jobs && jobs[k].state.Pending? && DepsSucceeded(jobs, k)
  }

  function ToSkip(jobs: map<JobKey, JobInstance>): set<JobKey> {
    set k | k in jobs && (jobs[k].state.Pending? || jobs[k].state.Queued?) && SomeDepBad(jobs, k)
  }

  function WithState(jobs: map<JobKey, JobInstance>, keys: set<JobKey>, state: JobState): map<JobKey, JobInstance> {
    map k | k in jobs :: if k in keys then jobs[k].(state := state) else jobs[k]
  }

  // Reserving and launching

  function Usable(online: seq<bool>, job: JobInstance): seq<bool> {
    seq(|online|, node requires 0 <= node < |online| => online[node] && !RejectedBy(job, node))
  }

  function ReleasedAt(pools: seq<PoolState>, placed: Placed): seq<PoolState> {
    if placed.node < |pools| then pools[placed.node := Released(pools[placed.node], placed.allocation)] else pools
  }

  // Polling

  function Ended(job: JobInstance, entry: PollEntry): JobInstance
    requires entry.reply.Some? && (entry.reply.value.PollFailed? || entry.reply.value.Exited?)
  {
    match entry.reply.value
    case Exited(code) =>
      job.(executions := [], exitCode := Some(code),
           state := if entry.cancelling then JobState.Cancelled else if code == 0 then JobState.Succeeded else JobState.Failed)
    case _ => job.(executions := [], state := JobState.Failed)
  }

  function ReleasedAll(pools: seq<PoolState>, executions: seq<Execution>): seq<PoolState>
    decreases |executions|
  {
    if executions == [] then pools
    else ReleasedAll(ReleasedAt(pools, executions[0]), executions[1..])
  }

  function RowOf(job: JobInstance): Row {
    Row(job.state, if job.executions == [] then None else Some(job.executions[0]))
  }

  // Restarting

  function Unfinished(rows: map<JobKey, Row>): set<RunId> {
    set k | k in rows && !rows[k].state.IsTerminal() :: k.run
  }

  /** Running rows of jobs to take back. */
  function RunningRows(rows: map<JobKey, Row>): set<JobKey> {
    set k | k in rows && rows[k].state.Running? && rows[k].held.Some?
  }

  /** A job rebuilt from the spec and its row; one that ran is Interrupted unless found. */
  function Restored(spec: JobSpec, rows: map<JobKey, Row>, k: JobKey, found: set<JobKey>): JobInstance {
    if k !in rows then NewJob(spec)
    else if rows[k].state.Running? then
      if k in found && rows[k].held.Some? then NewJob(spec).(state := Running, executions := [rows[k].held.value])
      else NewJob(spec).(state := Interrupted)
    else NewJob(spec).(state := rows[k].state)
  }

  function RestoredJobs(c: Ctl, found: set<JobKey>): map<JobKey, JobInstance> {
    map k | k in AllKeys(c.specs) && k.run in Unfinished(c.rows) && k.run in c.specs && k.job in c.specs[k.run] ::
      Restored(c.specs[k.run][k.job], c.rows, k, found)
  }

  function InterruptedRows(rows: map<JobKey, Row>, found: set<JobKey>): map<JobKey, Row> {
    map k | k in rows :: if rows[k].state.Running? && k !in found then Row(Interrupted, None) else rows[k]
  }

  function BookedAt(pools: seq<PoolState>, placed: Placed): (now: seq<PoolState>)
    ensures |now| == |pools|
  {
    Taken(pools, placed)
  }

  /** The found jobs' rows booked one after another. */
  function BookedRows(pools: seq<PoolState>, rows: map<JobKey, Row>, order: seq<JobKey>): (now: seq<PoolState>)
    ensures |now| == |pools|
  {
    if order == [] then pools
    else
      var before := BookedRows(pools, rows, order[..|order| - 1]);
      var k := order[|order| - 1];
      if k in rows && rows[k].held.Some? then BookedAt(before, rows[k].held.value) else before
  }

  function FreshPools(pools: seq<PoolState>): seq<PoolState> {
    seq(|pools|, n requires 0 <= n < |pools| => NewPool(pools[n].total))
  }

  // Clients: submit and cancel

  datatype ClientStep =
    | SubmitAccept(run: RunId, jobs: seq<JobSpec>)
    | SubmitRow(key: JobKey)
    | SubmitInsert(run: RunId)
    | CancelRun(run: RunId)

  function Submitted(c: Ctl, run: RunId): map<JobKey, JobInstance>
    requires run in c.specs
  {
    c.jobs + map k | k in Keys(run, c.specs[run]) && k.job in c.specs[run] :: NewJob(c.specs[run][k.job])
  }

  function Cancelling(jobs: map<JobKey, JobInstance>, run: RunId): map<JobKey, JobInstance> {
    map k | k in jobs :: if k.run == run && jobs[k].state.Running? then jobs[k].(cancelling := true) else jobs[k]
  }

  ghost predicate ClientNext(c: Ctl, step: ClientStep, d: Ctl) {
    match step
    case SubmitAccept(run, jobs) =>
      run !in c.specs && Acceptable(c, jobs)
      && d == c.(specs := c.specs[run := ById(jobs)], submitting := c.submitting + {run})
    case SubmitRow(k) =>
      k.run in c.submitting && k.run in c.specs && k.job in c.specs[k.run] && k !in c.rows
      && d == c.(rows := c.rows[k := Row(Pending, None)])
    case SubmitInsert(run) =>
      run in c.submitting && run in c.specs && Keys(run, c.specs[run]) <= c.rows.Keys
      && d == c.(jobs := Submitted(c, run), submitting := c.submitting - {run})
    case CancelRun(run) => d == c.(jobs := Cancelling(c.jobs, run))
  }

  // The tick: queueing, placing and launching

  /** The scheduler task has flushed its last section. */
  predicate Flushed(c: Ctl) {
    c.toWrite == {}
  }

  datatype AdmitStep =
    | AdvancePending
    | CascadeSkipped
    | ReserveJob(key: JobKey, online: seq<bool>, placed: Placed)
    | StartLaunching
    | LaunchDone(key: JobKey, result: LaunchResult)
    | StartApplying
    | ApplyLaunch(key: JobKey)
    | EndApplying

  function Advanced(c: Ctl): Ctl {
    c.(jobs := WithState(c.jobs, ToQueue(c.jobs), Queued), toWrite := ToQueue(c.jobs), phase := Cascading)
  }

  function Cascaded(c: Ctl): Ctl {
    c.(jobs := WithState(c.jobs, ToSkip(c.jobs), Skipped), toWrite := ToSkip(c.jobs), phase := Reserving)
  }

  predicate CanReserve(c: Ctl, k: JobKey, online: seq<bool>, placed: Placed) {
    && k in c.jobs && c.jobs[k].state.Queued? && k !in c.tasks
    && |online| == |c.pools| && AllShaped(c.pools)
    && PlaceAll(c.pools, Usable(online, c.jobs[k]), [c.jobs[k].spec.resources]) == Some([placed])
  }

  function ReservedFor(c: Ctl, k: JobKey, placed: Placed): Ctl {
    c.(pools := Taken(c.pools, placed), tasks := c.tasks[k := AdmitTask(placed, None)])
  }

  function WithResult(c: Ctl, k: JobKey, result: LaunchResult): Ctl
    requires k in c.tasks
  {
    c.(tasks := c.tasks[k := c.tasks[k].(result := Some(result))])
  }

  predicate AllLaunched(c: Ctl) {
    forall k | k in c.tasks :: c.tasks[k].result.Some?
  }

  /** The launch took: the reservation becomes the job's execution. */
  function Started(c: Ctl, k: JobKey): Ctl
    requires k in c.tasks && k in c.jobs
  {
    c.(tasks := c.tasks - {k}, toWrite := c.toWrite + {k},
       jobs := c.jobs[k := c.jobs[k].(state := Running, executions := [c.tasks[k].placed])])
  }

  /** The launch didn't take: the reservation goes back, and the job may have changed. */
  function GivenBack(c: Ctl, k: JobKey, job: Option<JobInstance>): Ctl
    requires k in c.tasks
  {
    var d := c.(tasks := c.tasks - {k}, pools := ReleasedAt(c.pools, c.tasks[k].placed));
    if job.None? then d else d.(jobs := c.jobs[k := job.value], toWrite := c.toWrite + {k})
  }

  /** What a job becomes when its launch didn't take; None when it stays as it is. */
  function NotStarted(pools: seq<PoolState>, job: JobInstance, task: AdmitTask): Option<JobInstance> {
    match task.result
    case Some(TurnedDown) =>
      var turnedDown := job.(rejected := job.rejected + [task.placed.node]);
      Some(if CouldGoElsewhere(pools, turnedDown) then turnedDown else turnedDown.(state := Failed))
    case Some(LaunchFailed) => Some(job.(state := Failed))
    case _ => None
  }

  function LaunchApplied(c: Ctl, k: JobKey): Ctl
    requires k in c.tasks
  {
    if k !in c.jobs then GivenBack(c, k, None)
    else if c.tasks[k].result == Some(Launched) then Started(c, k)
    else GivenBack(c, k, NotStarted(c.pools, c.jobs[k], c.tasks[k]))
  }

  ghost predicate AdmitNext(c: Ctl, step: AdmitStep, d: Ctl) {
    match step
    case AdvancePending => c.phase.Checking? && Flushed(c) && d == Advanced(c)
    case CascadeSkipped => c.phase.Cascading? && Flushed(c) && d == Cascaded(c)
    case ReserveJob(k, online, placed) =>
      c.phase.Reserving? && Flushed(c) && CanReserve(c, k, online, placed) && d == ReservedFor(c, k, placed)
    case StartLaunching => c.phase.Reserving? && Flushed(c) && d == c.(phase := Launching)
    case LaunchDone(k, result) =>
      c.phase.Launching? && k in c.tasks && c.tasks[k].result.None? && d == WithResult(c, k, result)
    case StartApplying => c.phase.Launching? && AllLaunched(c) && d == c.(phase := ApplyingLaunches)
    case ApplyLaunch(k) => c.phase.ApplyingLaunches? && k in c.tasks && c.tasks[k].result.Some? && d == LaunchApplied(c, k)
    case EndApplying => c.phase.ApplyingLaunches? && c.tasks == map[] && d == c.(phase := Snapshotting)
  }

  // The tick: polling

  datatype PollStep =
    | Snapshot
    | PollDone(key: JobKey, reply: PollReply)
    | StartApplyingPolls
    | ApplyPoll(key: JobKey)
    | EndPolls

  /** The poll snapshot: every running job and whether a cancel came in for it. */
  function Snapshots(jobs: map<JobKey, JobInstance>): map<JobKey, PollEntry> {
    map k | k in jobs && jobs[k].state.Running? :: PollEntry(jobs[k].cancelling, None)
  }

  predicate AllPolled(c: Ctl) {
    forall k | k in c.polls :: c.polls[k].reply.Some?
  }

  /** The reply says the job is over, one way or another. */
  predicate Over(reply: PollReply) {
    reply.PollFailed? || reply.Exited?
  }

  /** A job that is over becomes `job` and gives its executions back. */
  function Finished(c: Ctl, k: JobKey, job: JobInstance): Ctl
    requires k in c.jobs
  {
    var executions := c.jobs[k].executions;
    c.(polls := c.polls - {k}, jobs := c.jobs[k := job], pools := ReleasedAll(c.pools, executions),
        toWrite := c.toWrite + {k},
       released := if executions == [] then c.released else c.released[k := executions[0]])
  }

  function PollApplied(c: Ctl, k: JobKey): Ctl
    requires k in c.polls
  {
    if k in c.jobs && c.polls[k].reply.Some? && Over(c.polls[k].reply.value) then
      Finished(c, k, Ended(c.jobs[k], c.polls[k]))
    else
      c.(polls := c.polls - {k})
  }

  ghost predicate PollNext(c: Ctl, step: PollStep, d: Ctl) {
    match step
    case Snapshot => c.phase.Snapshotting? && Flushed(c) && d == c.(polls := Snapshots(c.jobs), phase := Polling)
    case PollDone(k, reply) =>
      c.phase.Polling? && k in c.polls && c.polls[k].reply.None?
      && d == c.(polls := c.polls[k := c.polls[k].(reply := Some(reply))])
    case StartApplyingPolls => c.phase.Polling? && AllPolled(c) && d == c.(phase := ApplyingPolls)
    case ApplyPoll(k) => c.phase.ApplyingPolls? && k in c.polls && c.polls[k].reply.Some? && d == PollApplied(c, k)
    case EndPolls => c.phase.ApplyingPolls? && c.polls == map[] && d == c.(phase := Checking)
  }

  // Between ticks: cards

  datatype CardStep =
    | ReserveForQualification(id: nat, node: nat, index: nat)
    | EndQualification(id: nat)
    | BlockCards(node: nat, blocked: seq<bool>)

  predicate CanQualify(c: Ctl, id: nat, node: nat, index: nat) {
    id !in c.qualifying && node < |c.pools| && Shaped(c.pools[node]) && ReserveCard(c.pools[node], index).Some?
  }

  function Qualifying(c: Ctl, id: nat, placed: Placed): Ctl {
    c.(pools := Taken(c.pools, placed), qualifying := c.qualifying[id := placed])
  }

  function Qualified(c: Ctl, id: nat): Ctl
    requires id in c.qualifying
  {
    c.(pools := ReleasedAt(c.pools, c.qualifying[id]), qualifying := c.qualifying - {id})
  }

  ghost predicate CardNext(c: Ctl, step: CardStep, d: Ctl) {
    c.phase.Checking? &&
    match step
    case ReserveForQualification(id, node, index) =>
      Flushed(c) && CanQualify(c, id, node, index)
      && d == Qualifying(c, id, Placed(node, ReserveCard(c.pools[node], index).value))
    case EndQualification(id) => id in c.qualifying && d == Qualified(c, id)
    case BlockCards(node, blocked) =>
      node < |c.pools| && |blocked| == |c.pools[node].blocked|
      && d == c.(pools := c.pools[node := c.pools[node].(blocked := blocked)])
  }

  // The store

  /** One job of a section written to the store, in the state it has now. */
  function Written(c: Ctl, k: JobKey): Ctl {
    c.(rows := if k in c.jobs then c.rows[k := RowOf(c.jobs[k])] else c.rows,
       toWrite := c.toWrite - {k}, released := c.released - {k})
  }

  // A crash, and the controller started again

  predicate CanRestart(c: Ctl, found: set<JobKey>, order: seq<JobKey>) {
    found <= RunningRows(c.rows) && Dag.NoDuplicates(order) && Dag.SetOf(order) == found
  }

  function Recovered(c: Ctl, found: set<JobKey>, order: seq<JobKey>): Ctl {
    Ctl(RestoredJobs(c, found), BookedRows(FreshPools(c.pools), c.rows, order), map[], map[], map[], Checking, {}, map[],
        c.specs, InterruptedRows(c.rows, found), {})
  }

  // All together

  datatype Step =
    | Client(client: ClientStep)
    | Admit(admit: AdmitStep)
    | Poll(poll: PollStep)
    | Cards(cards: CardStep)
    | Flush(key: JobKey)
    | Restart(found: set<JobKey>, order: seq<JobKey>)

  ghost predicate Next(c: Ctl, step: Step, d: Ctl) {
    match step
    case Client(s) => ClientNext(c, s, d)
    case Admit(s) => AdmitNext(c, s, d)
    case Poll(s) => PollNext(c, s, d)
    case Cards(s) => CardNext(c, s, d)
    case Flush(k) => k in c.toWrite && d == Written(c, k)
    case Restart(found, order) => CanRestart(c, found, order) && d == Recovered(c, found, order)
  }

  /** Nothing submitted, every pool free. */
  ghost predicate Init(c: Ctl) {
    && c.jobs == map[] && c.tasks == map[] && c.polls == map[] && c.qualifying == map[]
    && c.phase.Checking? && c.toWrite == {} && c.released == map[]
    && c.specs == map[] && c.rows == map[] && c.submitting == {}
    && forall n | 0 <= n < |c.pools| :: WellIndexed(c.pools[n].total) && c.pools[n] == NewPool(c.pools[n].total)
  }
}

/** Launching and polling over a network that loses replies: src/executor/remote.rs and src/worker.rs under
 *  src/scheduler/mod.rs, with the controller crashing and starting again at any time.
 *
 *  A Launch arrives before any later request for the same job or never; one that was under way when the controller crashed
 *  may still arrive at any time after. A node's daemon may restart, but what is alive left a trace by then
 *  (Executor.LeavesTrace), so only ended processes are forgotten. */
module Protocol {
  import opened Wrappers
  import opened Spec
  import opened Pool
  import opened Placement
  import opened Model
  import opened Controller
  import opened Ledger
  import opened Dependencies
  import opened Stored
  import opened Recovery
  import opened Executor

  /** A job on a node. */
  datatype Spot = Spot(node: nat, key: JobKey)

  /** `processes` are those the nodes know. `wire` holds Launch requests that may still arrive, also after the controller
   *  gave up on a reply; `sent` the jobs whose request went out and whose launch call hasn't returned; `late` the requests
   *  from before the controller last started. Since then, `starts` counts the processes that its own requests started for a
   *  job on any node, `lostTrack` has the jobs whose node misjudged a process that was alive, and `strays` are the processes
   *  that it found on nodes without having taken their jobs back there, or that a late request started, until it asks for
   *  them. */
  datatype Sys = Sys(
    ctl: Ctl,
    processes: map<Spot, Process>,
    wire: set<Spot>,
    replies: map<Spot, Response>,
    sent: set<JobKey>,
    late: set<Spot>,
    ghost starts: multiset<JobKey>,
    ghost lostTrack: set<JobKey>,
    ghost strays: set<Spot>)

  datatype SysStep =
    | Inside(step: Step)              // any step of the controller that asks no node anything
    | NotSent(key: JobKey)            // connecting failed
    | Send(key: JobKey)
    | Arrive(spot: Spot, spawn: Spawn)
    | ArriveLate(spot: Spot, spawn: Spawn)
    | ReplyCame(key: JobKey)
    | ReplyLost(key: JobKey)
    | PollAnswered(key: JobKey, check: Check)
    | PollUnanswered(key: JobKey, arrived: bool)
    | ProcessChanges(spot: Spot, now: Process) // its scope is set up, its wrapper is lost, or it ends
    | Forgets(spot: Spot)                      // the node's daemon restarts
    | Crash(found: set<JobKey>, order: seq<JobKey>, left: set<Spot>)

  /** The steps that come from what a node answers are the others'. */
  predicate AsksNoNode(step: Step) {
    !step.Restart? && !(step.Admit? && step.admit.LaunchDone?) && !(step.Poll? && step.poll.PollDone?)
  }

  predicate Unresolved(s: Sys, k: JobKey) {
    s.ctl.phase.Launching? && k in s.ctl.tasks && s.ctl.tasks[k].result.None?
  }

  predicate BeingPolled(s: Sys, k: JobKey) {
    && s.ctl.phase.Polling? && k in s.ctl.polls && s.ctl.polls[k].reply.None?
    && k in s.ctl.jobs && s.ctl.jobs[k].executions != []
  }

  function TaskSpot(s: Sys, k: JobKey): Spot
    requires k in s.ctl.tasks
  {
    Spot(s.ctl.tasks[k].placed.node, k)
  }

  function JobSpot(s: Sys, k: JobKey): Spot
    requires k in s.ctl.jobs && s.ctl.jobs[k].executions != []
  {
    Spot(s.ctl.jobs[k].executions[0].node, k)
  }

  function WithLaunch(c: Ctl, k: JobKey, reply: Option<Response>): Ctl
    requires k in c.tasks
  {
    WithResult(c, k, AsLaunchResult(LaunchOutcome(reply)))
  }

  function WithPoll(c: Ctl, k: JobKey, reply: PollReply): Ctl
    requires k in c.polls
  {
    c.(polls := c.polls[k := c.polls[k].(reply := Some(reply))])
  }

  ghost predicate Arrives(s: Sys, p: Spot, spawn: Spawn, t: Sys) {
    var (now, reply) := NodeLaunch(s.processes, p, spawn);
    && p in s.wire
    && t == s.(processes := now, wire := s.wire - {p},
               replies := if p.key in s.sent then s.replies[p := reply] else s.replies,
               starts := if p in now && p !in s.processes then s.starts + multiset{p.key} else s.starts,
               strays := s.strays - {p})
  }

  ghost predicate PollAnswers(s: Sys, k: JobKey, check: Check, t: Sys)
    requires BeingPolled(s, k)
  {
    var p := JobSpot(s, k);
    && t == s.(ctl := WithPoll(s.ctl, k, AsPollReply(PollOutcome(Some(NodePoll(s.processes, p, check))))),
               wire := s.wire - {p}, strays := s.strays - {p},
               lostTrack := if p in s.processes && Misjudges(s.processes[p], check) then s.lostTrack + {k} else s.lostTrack)
  }

  /** Nobody waits for a reply any more. */
  ghost predicate ArrivesLate(s: Sys, p: Spot, spawn: Spawn, t: Sys) {
    var now := NodeLaunch(s.processes, p, spawn).0;
    && p in s.late
    && t == s.(processes := now, late := s.late - {p},
               strays := if p in now && p !in s.processes then s.strays + {p} else s.strays)
  }

  ghost predicate SysNext(s: Sys, step: SysStep, t: Sys) {
    match step
    case Inside(cs) => AsksNoNode(cs) && Next(s.ctl, cs, t.ctl) && t == s.(ctl := t.ctl)
    case NotSent(k) => Unresolved(s, k) && k !in s.sent && t == s.(ctl := WithResult(s.ctl, k, Unreachable))
    case Send(k) => Unresolved(s, k) && k !in s.sent && t == s.(sent := s.sent + {k}, wire := s.wire + {TaskSpot(s, k)})
    case Arrive(p, spawn) => Arrives(s, p, spawn, t)
    case ArriveLate(p, spawn) => ArrivesLate(s, p, spawn, t)
    case ReplyCame(k) =>
      Unresolved(s, k) && k in s.sent && TaskSpot(s, k) in s.replies
      && t == s.(ctl := WithLaunch(s.ctl, k, Some(s.replies[TaskSpot(s, k)])), sent := s.sent - {k},
          replies := s.replies - {TaskSpot(s, k)})
    case ReplyLost(k) =>
      Unresolved(s, k) && k in s.sent
      && t == s.(ctl := WithLaunch(s.ctl, k, None), sent := s.sent - {k}, replies := s.replies - {TaskSpot(s, k)})
    case PollAnswered(k, check) => BeingPolled(s, k) && PollAnswers(s, k, check, t)
    case PollUnanswered(k, arrived) =>
      BeingPolled(s, k)
      && t == s.(ctl := WithPoll(s.ctl, k, AsPollReply(PollOutcome(None))),
          wire := if arrived then s.wire - {JobSpot(s, k)} else s.wire)
    case ProcessChanges(p, now) =>
      && p in s.processes && s.processes[p].Alive? && (now.Alive? && now.child ==> s.processes[p].child)
      && t == s.(processes := s.processes[p := now])
    case Forgets(p) =>
      p in s.processes && s.processes[p].Ended? && !LeavesTrace(s.processes[p]) && t == s.(processes := s.processes - {p})
    case Crash(found, order, left) => Crashes(s, found, order, left, t)
  }

  /** The nodes go on as they were; calls, replies and counts are gone, and of the requests those still under way are left. */
  ghost predicate Crashes(s: Sys, found: set<JobKey>, order: seq<JobKey>, left: set<Spot>, t: Sys) {
    && Next(s.ctl, Restart(found, order), t.ctl)
    && left <= s.wire + s.late
    && t == Sys(t.ctl, s.processes, {}, map[], {}, left, multiset{}, {}, UnclaimedProcesses(t.ctl, s.processes))
  }

  function UnclaimedProcesses(c: Ctl, processes: map<Spot, Process>): set<Spot> {
    set p | p in processes && Whereabouts(c, {}, p.key) != Some(p.node)
  }

  /** A step of the whole is a step of the controller, or leaves it alone. */
  lemma SysStepIsStep(s: Sys, step: SysStep, t: Sys)
    requires SysNext(s, step, t) && !step.Crash?
    ensures t.ctl == s.ctl || exists cs :: Next(s.ctl, cs, t.ctl) && !cs.Restart?
  {
    match step
    case Inside(cs) =>
    case NotSent(k) => assert Next(s.ctl, Admit(LaunchDone(k, Unreachable)), t.ctl);
    case ReplyCame(k) =>
      assert Next(s.ctl, Admit(LaunchDone(k, AsLaunchResult(LaunchOutcome(Some(s.replies[TaskSpot(s, k)]))))), t.ctl);
    case ReplyLost(k) => assert Next(s.ctl, Admit(LaunchDone(k, AsLaunchResult(LaunchOutcome(None)))), t.ctl);
    case PollAnswered(k, check) =>
      assert Next(s.ctl, Poll(PollDone(k, AsPollReply(PollOutcome(Some(NodePoll(s.processes, JobSpot(s, k),
          check)))))), t.ctl);
    case PollUnanswered(k, _) => assert Next(s.ctl, Poll(PollDone(k, AsPollReply(PollOutcome(None)))), t.ctl);
    case _ =>
  }

  // Where a job may be

  /** The node a job may be running on, as far as the controller knows. */
  function Whereabouts(c: Ctl, sent: set<JobKey>, k: JobKey): Option<nat> {
    if k in c.tasks && (k in sent || c.tasks[k].result == Some(Launched)) then Some(c.tasks[k].placed.node)
    else if k in c.jobs && c.jobs[k].state.Running? && c.jobs[k].executions != [] then Some(c.jobs[k].executions[0].node)
    else None
  }

  predicate HasEnded(c: Ctl, k: JobKey) {
    k in c.jobs && c.jobs[k].state.IsTerminal()
  }

  ghost predicate Mentioned(s: Sys, p: Spot) {
    (p in s.processes && p !in s.strays) || p in s.wire || p in s.replies
  }

  /** No request for the job was delivered or is under way, and nothing was started. */
  ghost predicate Untouched(s: Sys, k: JobKey) {
    s.starts[k] == 0 && forall p: Spot | p.key == k :: !Mentioned(s, p)
  }

  /** Everything about the job is at one node, where it was started at most once, or may yet be. */
  ghost predicate OnlyAt(s: Sys, k: JobKey, node: nat) {
    var p := Spot(node, k);
    && (forall q: Spot | q.key == k && Mentioned(s, q) :: q == p)
    && s.starts[k] <= 1
    && (p in s.wire ==> s.starts[k] == 0 && p !in s.replies)
    && (p in s.replies ==>
          k in s.sent && (s.replies[p].LaunchedReply? || (s.starts[k] == 0 && (p in s.processes ==> p in s.strays))))
  }

  /** Nothing can start any more, and what is alive was lost track of. */
  ghost predicate Settled(s: Sys, k: JobKey) {
    && s.starts[k] <= 1
    && (forall p: Spot | p.key == k :: p !in s.wire && p !in s.replies)
    && (forall p: Spot | p.key == k && p in s.processes && s.processes[p].Alive? :: k in s.lostTrack || p in s.strays)
  }

  ghost predicate JobTracked(s: Sys, k: JobKey) {
    match Whereabouts(s.ctl, s.sent, k)
    case Some(node) => OnlyAt(s, k, node)
    case None => if HasEnded(s.ctl, k) then Settled(s, k) else Untouched(s, k)
  }

  ghost predicate Tracked(s: Sys) {
    forall k :: JobTracked(s, k)
  }

  /** A launch call is open only in the launching phase, and for a task without a result. */
  ghost predicate CallsOpen(s: Sys) {
    forall k | k in s.sent :: Unresolved(s, k)
  }

  /** A job whose poll says it is over has settled. */
  ghost predicate PollsTell(s: Sys) {
    forall k | k in s.ctl.polls && s.ctl.polls[k].reply.Some? && Over(s.ctl.polls[k].reply.value) :: Settled(s, k)
  }

  /** What a misjudged process is reported as. */
  const LOST_REPLIES: set<Option<PollReply>> := {Some(PollFailed), Some(Exited(-1))}

  predicate LostHasEnded(c: Ctl, k: JobKey) {
    && k in c.jobs
    && (c.jobs[k].state in {Failed, JobState.Cancelled} || (k in c.polls && c.polls[k].reply in LOST_REPLIES))
  }

  /** A job lost track of has failed or counts as cancelled, or will when its poll is applied. */
  ghost predicate LostHaveEnded(s: Sys) {
    forall k | k in s.lostTrack :: LostHasEnded(s.ctl, k)
  }

  /** What is remembered for a row not yet written is of a job that ended. */
  ghost predicate ReleasedHaveEnded(c: Ctl) {
    forall k | k in c.released :: HasEnded(c, k)
  }

  ghost predicate SysInv(s: Sys) {
    Tracked(s) && CallsOpen(s) && PollsTell(s) && LostHaveEnded(s) && ReleasedHaveEnded(s.ctl)
  }

  // Steps inside the controller

  /** The controller thinks the job is where it was, or has just ended it on a poll that says it is over. */
  ghost predicate Follows(c: Ctl, d: Ctl, sent: set<JobKey>, k: JobKey) {
    || (&& Whereabouts(d, sent, k) == Whereabouts(c, sent, k)
        && (HasEnded(d, k) == HasEnded(c, k) || (Whereabouts(c, sent, k).None? && !HasEnded(c, k))))
    || (&& k in c.polls && c.polls[k].reply.Some? && Over(c.polls[k].reply.value)
        && Whereabouts(d, sent, k).None? && HasEnded(d, k))
  }

  lemma SameJobFollows(c: Ctl, d: Ctl, sent: set<JobKey>, k: JobKey)
    requires k in d.jobs <==> k in c.jobs
    requires k in c.jobs ==> d.jobs[k].state == c.jobs[k].state && d.jobs[k].executions == c.jobs[k].executions
    requires k in d.tasks <==> k in c.tasks
    requires k in c.tasks ==> d.tasks[k] == c.tasks[k]
    ensures Follows(c, d, sent, k)
  {
  }

  lemma ClientFollows(c: Ctl, step: ClientStep, d: Ctl, sent: set<JobKey>, k: JobKey)
    requires Shapes(c) && ClientNext(c, step, d)
    ensures Follows(c, d, sent, k)
  {
    ClientFrame(c, step, d);
    match step
    case SubmitInsert(run) => SubmittedJobs(c, run);
    case CancelRun(run) => SameJobFollows(c, d, sent, k);
    case _ =>
  }

  lemma StartedFollows(c: Ctl, j: JobKey, sent: set<JobKey>, k: JobKey)
    requires j in c.tasks && j in c.jobs && c.jobs[j].state.Queued? && c.tasks[j].result == Some(Launched)
    ensures Follows(c, Started(c, j), sent, k)
  {
  }

  lemma GivenBackFollows(c: Ctl, j: JobKey, job: Option<JobInstance>, sent: set<JobKey>, k: JobKey)
    requires j in c.tasks && j in c.jobs && c.jobs[j].state.Queued? && j !in sent && c.tasks[j].result != Some(Launched)
    requires job.Some? ==> !job.value.state.Running?
    ensures Follows(c, GivenBack(c, j, job), sent, k)
  {
  }

  lemma LaunchAppliedFollows(c: Ctl, j: JobKey, sent: set<JobKey>, k: JobKey)
    requires j in c.tasks && j in c.jobs && c.jobs[j].state.Queued? && c.tasks[j].result.Some? && j !in sent
    ensures Follows(c, LaunchApplied(c, j), sent, k)
  {
    if c.tasks[j].result == Some(Launched) {
      StartedFollows(c, j, sent, k);
    } else {
      GivenBackFollows(c, j, NotStarted(c.pools, c.jobs[j], c.tasks[j]), sent, k);
    }
  }

  lemma QueuedFollows(c: Ctl, keys: set<JobKey>, state: JobState, d: Ctl, sent: set<JobKey>, k: JobKey)
    requires c.tasks == map[] && d.tasks == map[] && d.jobs == WithState(c.jobs, keys, state) && !state.Running?
    requires forall j | j in keys :: j in c.jobs && (c.jobs[j].state.Pending? || c.jobs[j].state.Queued?)
    ensures Follows(c, d, sent, k)
  {
  }

  lemma ReservedFollows(c: Ctl, j: JobKey, placed: Placed, sent: set<JobKey>, k: JobKey)
    requires j !in c.tasks && j in c.jobs && c.jobs[j].state.Queued? && j !in sent
    ensures Follows(c, ReservedFor(c, j, placed), sent, k)
  {
  }

  lemma AdmitFollows(c: Ctl, step: AdmitStep, d: Ctl, sent: set<JobKey>, k: JobKey)
    requires Shapes(c) && Phases(c) && AdmitNext(c, step, d) && !step.LaunchDone?
    requires forall j | j in sent :: j in c.tasks && c.tasks[j].result.None?
    ensures Follows(c, d, sent, k)
  {
    match step
    case AdvancePending => QueuedFollows(c, ToQueue(c.jobs), Queued, d, sent, k);
    case CascadeSkipped => QueuedFollows(c, ToSkip(c.jobs), Skipped, d, sent, k);
    case ReserveJob(j, online, placed) => ReservedFollows(c, j, placed, sent, k);
    case ApplyLaunch(j) => LaunchAppliedFollows(c, j, sent, k);
    case _ => SameJobFollows(c, d, sent, k);
  }

  lemma FinishedFollows(c: Ctl, j: JobKey, job: JobInstance, sent: set<JobKey>, k: JobKey)
    requires j in c.polls && c.polls[j].reply.Some? && Over(c.polls[j].reply.value) && c.tasks == map[]
    requires j in c.jobs && job.state.IsTerminal()
    ensures Follows(c, Finished(c, j, job), sent, k)
  {
  }

  lemma PollAppliedFollows(c: Ctl, j: JobKey, sent: set<JobKey>, k: JobKey)
    requires j in c.polls && c.polls[j].reply.Some? && c.tasks == map[]
    ensures Follows(c, PollApplied(c, j), sent, k)
  {
    if j in c.jobs && Over(c.polls[j].reply.value) {
      FinishedFollows(c, j, Controller.Ended(c.jobs[j], c.polls[j]), sent, k);
    }
  }

  lemma PollFollows(c: Ctl, step: PollStep, d: Ctl, sent: set<JobKey>, k: JobKey)
    requires Shapes(c) && Phases(c) && PollNext(c, step, d) && !step.PollDone?
    ensures Follows(c, d, sent, k)
  {
    match step
    case ApplyPoll(j) => PollAppliedFollows(c, j, sent, k);
    case _ => SameJobFollows(c, d, sent, k);
  }

  lemma InsideFollows(c: Ctl, step: Step, d: Ctl, sent: set<JobKey>, k: JobKey)
    requires Shapes(c) && Phases(c) && AsksNoNode(step) && Next(c, step, d)
    requires forall j | j in sent :: j in c.tasks && c.tasks[j].result.None?
    ensures Follows(c, d, sent, k)
  {
    match step
    case Client(st) => ClientFollows(c, st, d, sent, k);
    case Admit(st) => AdmitFollows(c, st, d, sent, k);
    case Poll(st) => PollFollows(c, st, d, sent, k);
    case Cards(st) => CardFrame(c, st, d); SameJobFollows(c, d, sent, k);
    case Flush(_) => SameJobFollows(c, d, sent, k);
  }

  lemma FollowedIsTracked(s: Sys, t: Sys, k: JobKey)
    requires t == s.(ctl := t.ctl) && JobTracked(s, k) && PollsTell(s) && Follows(s.ctl, t.ctl, s.sent, k)
    ensures JobTracked(t, k)
  {
  }

  /** Open launch calls keep the scheduler in its launching phase. */
  lemma InsideCalls(c: Ctl, step: Step, d: Ctl, k: JobKey)
    requires AsksNoNode(step) && Next(c, step, d)
    requires c.phase.Launching? && k in c.tasks && c.tasks[k].result.None?
    ensures d.phase.Launching? && k in d.tasks && d.tasks[k].result.None?
  {
    if step.Client? {
      ClientFrame(c, step.client, d);
    }
  }

  /** What the poll phase knows of a job only changes when its reply comes or is applied. */
  ghost predicate SamePoll(c: Ctl, d: Ctl, k: JobKey) {
    && (k in d.polls && d.polls[k].reply.Some? ==> k in c.polls && d.polls[k] == c.polls[k])
    && (k in c.polls && c.polls[k].reply.Some? ==>
          if k in d.polls then d.polls[k] == c.polls[k] else k in c.jobs ==> k in d.jobs && PolledNow(c, d, k))
  }

  predicate PolledNow(c: Ctl, d: Ctl, k: JobKey)
    requires k in c.polls && c.polls[k].reply.Some? && k in c.jobs && k in d.jobs
  {
    Over(c.polls[k].reply.value) ==> d.jobs[k] == Controller.Ended(c.jobs[k], c.polls[k])
  }

  lemma FinishedPolls(c: Ctl, j: JobKey, k: JobKey)
    requires j in c.polls && c.polls[j].reply.Some?
    ensures SamePoll(c, PollApplied(c, j), k)
  {
  }

  lemma PollPolls(c: Ctl, step: PollStep, d: Ctl, k: JobKey)
    requires Phases(c) && PollNext(c, step, d) && !step.PollDone?
    ensures SamePoll(c, d, k)
  {
    if step.ApplyPoll? {
      FinishedPolls(c, step.key, k);
    }
  }

  lemma InsidePolls(c: Ctl, step: Step, d: Ctl, k: JobKey)
    requires Shapes(c) && Phases(c) && AsksNoNode(step) && Next(c, step, d)
    ensures SamePoll(c, d, k)
  {
    match step
    case Client(st) => ClientFrame(c, st, d);
    case Admit(st) => AdmitFrame(c, st, d);
    case Poll(st) => PollPolls(c, st, d, k);
    case Cards(st) => CardFrame(c, st, d);
    case Flush(_) =>
  }

  lemma LostStaysEnded(c: Ctl, d: Ctl, k: JobKey)
    requires SamePoll(c, d, k) && Moves(c.jobs, d.jobs) && LostHasEnded(c, k)
    ensures LostHasEnded(d, k)
  {
    if c.jobs[k].state.IsTerminal() {
      EndedStays(c.jobs, d.jobs, k);
    }
  }

  lemma FinishedReleases(c: Ctl, j: JobKey, job: JobInstance, k: JobKey)
    requires j in c.jobs && job.state.IsTerminal() && k in Finished(c, j, job).released
    ensures k in c.released || (k == j && HasEnded(Finished(c, j, job), k))
  {
  }

  lemma PollReleases(c: Ctl, step: PollStep, d: Ctl, k: JobKey)
    requires Shapes(c) && PollNext(c, step, d) && k in d.released
    ensures k in c.released || HasEnded(d, k)
  {
    if step.ApplyPoll? && Over(c.polls[step.key].reply.value) {
      FinishedReleases(c, step.key, Controller.Ended(c.jobs[step.key], c.polls[step.key]), k);
    }
  }

  lemma InsideReleases(c: Ctl, step: Step, d: Ctl, k: JobKey)
    requires Shapes(c) && AsksNoNode(step) && Next(c, step, d) && k in d.released
    ensures k in c.released || HasEnded(d, k)
  {
    match step
    case Client(st) => ClientFrame(c, st, d);
    case Admit(st) => AdmitFrame(c, st, d);
    case Poll(st) => PollReleases(c, st, d, k);
    case Cards(st) => CardFrame(c, st, d);
    case Flush(_) =>
  }

  lemma ReleasedStayEnded(c: Ctl, step: Step, d: Ctl)
    requires Shapes(c) && AsksNoNode(step) && Next(c, step, d) && Moves(c.jobs, d.jobs) && ReleasedHaveEnded(c)
    ensures ReleasedHaveEnded(d)
  {
    forall k | k in d.released ensures HasEnded(d, k) {
      InsideReleases(c, step, d, k);
      if k in c.released {
        EndedStays(c.jobs, d.jobs, k);
      }
    }
  }

  lemma InsideKeeps(s: Sys, step: Step, t: Sys)
    requires LedgerInv(s.ctl) && DepInv(s.ctl) && SysInv(s) && SysNext(s, Inside(step), t)
    ensures SysInv(t)
  {
    DepsKept(s.ctl, step, t.ctl);
    ReleasedStayEnded(s.ctl, step, t.ctl);
    forall k ensures JobTracked(t, k) {
      assert JobTracked(s, k);
      InsideFollows(s.ctl, step, t.ctl, s.sent, k);
      FollowedIsTracked(s, t, k);
    }
    forall k | k in t.sent ensures Unresolved(t, k) {
      assert Unresolved(s, k);
      InsideCalls(s.ctl, step, t.ctl, k);
    }
    forall k | k in t.ctl.polls && t.ctl.polls[k].reply.Some? && Over(t.ctl.polls[k].reply.value) ensures Settled(t, k) {
      InsidePolls(s.ctl, step, t.ctl, k);
      assert Settled(s, k);
    }
    forall k | k in t.lostTrack ensures LostHasEnded(t.ctl, k) {
      InsidePolls(s.ctl, step, t.ctl, k);
      LostStaysEnded(s.ctl, t.ctl, k);
    }
  }

  // Steps between the controller and the nodes

  /** Nothing about the job changed, except that its process may have ended or been forgotten. */
  ghost predicate SameAround(s: Sys, t: Sys, k: JobKey) {
    && Whereabouts(t.ctl, t.sent, k) == Whereabouts(s.ctl, s.sent, k) && HasEnded(t.ctl, k) == HasEnded(s.ctl, k)
    && (k in t.sent <==> k in s.sent) && SameSpots(s, t, k)
  }

  ghost predicate SameSpots(s: Sys, t: Sys, k: JobKey) {
    && t.starts[k] == s.starts[k] && (k in s.lostTrack ==> k in t.lostTrack)
    && forall p: Spot | p.key == k ::
         && (p in t.wire <==> p in s.wire)
         && (p in t.replies <==> p in s.replies) && (p in s.replies ==> t.replies[p] == s.replies[p])
         && (p in t.strays <==> p in s.strays)
         && (p in t.processes ==> p in s.processes && (t.processes[p].Alive? ==> s.processes[p].Alive?))
  }

  lemma SameIsTracked(s: Sys, t: Sys, k: JobKey)
    requires JobTracked(s, k) && SameAround(s, t, k)
    ensures JobTracked(t, k)
  {
  }

  lemma SameIsSettled(s: Sys, t: Sys, k: JobKey)
    requires Settled(s, k) && SameSpots(s, t, k)
    ensures Settled(t, k)
  {
  }

  /** A task's job is queued, so not ended, and polls are not under way while launching. */
  lemma WhileLaunching(c: Ctl, k: JobKey)
    requires Shapes(c) && Phases(c) && c.phase.Launching? && k in c.tasks
    ensures k in c.jobs && c.jobs[k].state.Queued? && c.polls == map[]
    ensures !HasEnded(c, k)
  {
  }

  /** While polling, a polled job is running, and no launch is under way. */
  lemma WhilePolling(c: Ctl, k: JobKey)
    requires Shapes(c) && Phases(c) && c.phase.Polling? && k in c.polls
    ensures k in c.jobs && c.jobs[k].state.Running? && |c.jobs[k].executions| == 1 && c.tasks == map[]
    ensures Whereabouts(c, {}, k) == Some(c.jobs[k].executions[0].node)
  {
  }

  lemma NotSentKeeps(s: Sys, k: JobKey, t: Sys)
    requires SysInv(s) && SysNext(s, NotSent(k), t)
    ensures SysInv(t)
  {
    forall j ensures JobTracked(t, j) {
      assert JobTracked(s, j);
      SameIsTracked(s, t, j);
    }
    forall j | j in t.sent ensures Unresolved(t, j) {
      assert Unresolved(s, j);
    }
    PollsUnchanged(s, t);
  }

  /** With jobs and polls as they were, and nothing about polled jobs changed. */
  lemma PollsUnchanged(s: Sys, t: Sys)
    requires PollsTell(s) && LostHaveEnded(s) && t.lostTrack == s.lostTrack
    requires t.ctl.polls == s.ctl.polls && t.ctl.jobs == s.ctl.jobs
    requires forall k | k in s.ctl.polls && s.ctl.polls[k].reply.Some? && Over(s.ctl.polls[k].reply.value) ::
        SameSpots(s, t, k)
    ensures PollsTell(t) && LostHaveEnded(t)
  {
    forall k | k in t.ctl.polls && t.ctl.polls[k].reply.Some? && Over(t.ctl.polls[k].reply.value) ensures Settled(t, k) {
      SameIsSettled(s, t, k);
    }
    forall k | k in t.lostTrack ensures LostHasEnded(t.ctl, k) {
      assert LostHasEnded(s.ctl, k);
    }
  }

  /** One job tracked anew, and the others left alone. */
  lemma KeptExceptFor(s: Sys, t: Sys, k: JobKey)
    requires Tracked(s) && PollsTell(s) && LostHaveEnded(s) && JobTracked(t, k) && forall j | j != k :: SameAround(s, t, j)
    requires t.ctl.polls == s.ctl.polls && t.ctl.jobs == s.ctl.jobs && t.lostTrack == s.lostTrack
    requires k in s.ctl.polls && s.ctl.polls[k].reply.Some? && Over(s.ctl.polls[k].reply.value) ==> SameSpots(s, t, k)
    ensures Tracked(t) && PollsTell(t) && LostHaveEnded(t)
  {
    forall j ensures JobTracked(t, j) {
      assert JobTracked(s, j);
      if j != k {
        SameIsTracked(s, t, j);
      }
    }
    forall j | j in s.ctl.polls && s.ctl.polls[j].reply.Some? && Over(s.ctl.polls[j].reply.value)
      ensures SameSpots(s, t, j) {
      assert j != k ==> SameAround(s, t, j);
    }
    PollsUnchanged(s, t);
  }

  lemma SendKeeps(s: Sys, k: JobKey, t: Sys)
    requires Shapes(s.ctl) && Phases(s.ctl) && SysInv(s) && SysNext(s, Send(k), t)
    ensures SysInv(t)
  {
    WhileLaunching(s.ctl, k);
    assert JobTracked(s, k);
    KeptExceptFor(s, t, k);
    forall j | j in t.sent ensures Unresolved(t, j) {
      assert j != k ==> Unresolved(s, j);
    }
  }

  /** A request that arrives is of a job that is at that node and nowhere else. */
  lemma ArrivingIsOnlyThere(s: Sys, p: Spot)
    requires JobTracked(s, p.key) && p in s.wire
    ensures OnlyAt(s, p.key, p.node) && Whereabouts(s.ctl, s.sent, p.key) == Some(p.node)
  {
    assert Mentioned(s, p);
  }

  lemma ArriveTracks(s: Sys, p: Spot, spawn: Spawn, t: Sys)
    requires OnlyAt(s, p.key, p.node) && p in s.wire && Arrives(s, p, spawn, t)
    ensures OnlyAt(t, p.key, p.node)
  {
    forall q: Spot | q.key == p.key && Mentioned(t, q) ensures q == p {
      if q != p {
        assert Mentioned(s, q);
      }
    }
  }

  lemma ArriveLeavesOthers(s: Sys, p: Spot, spawn: Spawn, t: Sys, j: JobKey)
    requires Arrives(s, p, spawn, t) && j != p.key
    ensures SameAround(s, t, j)
  {
  }

  lemma ArriveKeeps(s: Sys, p: Spot, spawn: Spawn, t: Sys)
    requires SysInv(s) && Arrives(s, p, spawn, t)
    ensures SysInv(t)
  {
    assert JobTracked(s, p.key);
    ArrivingIsOnlyThere(s, p);
    ArriveTracks(s, p, spawn, t);
    forall j | j != p.key ensures SameAround(s, t, j) {
      ArriveLeavesOthers(s, p, spawn, t, j);
    }
    KeptExceptFor(s, t, p.key);
    CallsStayOpen(s, t);
  }

  lemma CallsStayOpen(s: Sys, t: Sys)
    requires CallsOpen(s) && t.sent == s.sent && t.ctl == s.ctl
    ensures CallsOpen(t)
  {
    forall j | j in t.sent ensures Unresolved(t, j) {
      assert Unresolved(s, j);
    }
  }

  lemma ReplyTracks(s: Sys, k: JobKey, t: Sys)
    requires Shapes(s.ctl) && Phases(s.ctl) && JobTracked(s, k)
    requires SysNext(s, ReplyCame(k), t) || SysNext(s, ReplyLost(k), t)
    ensures JobTracked(t, k)
  {
    WhileLaunching(s.ctl, k);
    var p := TaskSpot(s, k);
    assert OnlyAt(s, k, p.node);
    forall q: Spot | q.key == k && Mentioned(t, q) ensures q == p {
      assert Mentioned(s, q);
    }
  }

  lemma ReplyLeavesOthers(s: Sys, k: JobKey, t: Sys, j: JobKey)
    requires SysNext(s, ReplyCame(k), t) || SysNext(s, ReplyLost(k), t)
    requires j != k
    ensures SameAround(s, t, j)
  {
  }

  lemma ReplyCalls(s: Sys, k: JobKey, t: Sys)
    requires CallsOpen(s) && (SysNext(s, ReplyCame(k), t) || SysNext(s, ReplyLost(k), t))
    ensures CallsOpen(t)
  {
    forall j | j in t.sent ensures Unresolved(t, j) {
      assert Unresolved(s, j);
    }
  }

  lemma ReplySame(s: Sys, k: JobKey, t: Sys)
    requires SysNext(s, ReplyCame(k), t) || SysNext(s, ReplyLost(k), t)
    ensures s.ctl.phase.Launching? && k in s.ctl.tasks
    ensures t.ctl.polls == s.ctl.polls && t.ctl.jobs == s.ctl.jobs && t.lostTrack == s.lostTrack
  {
  }

  lemma ReplyKeeps(s: Sys, k: JobKey, t: Sys)
    requires Shapes(s.ctl) && Phases(s.ctl) && SysInv(s)
    requires SysNext(s, ReplyCame(k), t) || SysNext(s, ReplyLost(k), t)
    ensures SysInv(t)
  {
    ReplySame(s, k, t);
    WhileLaunching(s.ctl, k);
    assert JobTracked(s, k);
    ReplyTracks(s, k, t);
    forall j | j != k ensures SameAround(s, t, j) {
      ReplyLeavesOthers(s, k, t, j);
    }
    KeptExceptFor(s, t, k);
    ReplyCalls(s, k, t);
  }

  lemma NoCallsWhilePolling(s: Sys)
    requires CallsOpen(s) && s.ctl.phase.Polling?
    ensures s.sent == {}
  {
    forall k ensures k !in s.sent {
      assert k in s.sent ==> Unresolved(s, k);
    }
  }

  /** What an answered poll leaves of a polled job: still tracked, and settled if the reply says it is over. */
  lemma PollTracks(s: Sys, k: JobKey, check: Check, t: Sys)
    requires Shapes(s.ctl) && Phases(s.ctl) && JobTracked(s, k) && s.sent == {}
    requires BeingPolled(s, k) && PollAnswers(s, k, check, t)
    ensures JobTracked(t, k)
    ensures Over(t.ctl.polls[k].reply.value) ==> Settled(t, k)
    ensures k in t.lostTrack && k !in s.lostTrack ==> t.ctl.polls[k].reply in LOST_REPLIES
  {
    WhilePolling(s.ctl, k);
    var p := JobSpot(s, k);
    assert OnlyAt(s, k, p.node);
    forall q: Spot | q.key == k && Mentioned(t, q) ensures q == p {
      if q != p {
        assert Mentioned(s, q);
      }
    }
    assert forall q: Spot | q.key == k :: q in t.processes ==> Mentioned(t, q) || q in t.strays;
    assert forall q: Spot | q.key == k :: q in t.wire ==> Mentioned(t, q);
    assert forall q: Spot | q.key == k :: q in t.replies ==> Mentioned(t, q);
  }

  lemma PollLeavesOthers(s: Sys, k: JobKey, check: Check, t: Sys, j: JobKey)
    requires BeingPolled(s, k) && PollAnswers(s, k, check, t) && j != k
    ensures SameAround(s, t, j)
  {
  }

  lemma PollOfOthersTells(s: Sys, k: JobKey, check: Check, t: Sys, j: JobKey)
    requires PollsTell(s) && BeingPolled(s, k) && PollAnswers(s, k, check, t) && j != k
    requires j in t.ctl.polls && t.ctl.polls[j].reply.Some? && Over(t.ctl.polls[j].reply.value)
    ensures Settled(t, j)
  {
    PollLeavesOthers(s, k, check, t, j);
    assert Settled(s, j);
    SameIsSettled(s, t, j);
  }

  lemma PollKeeps(s: Sys, k: JobKey, check: Check, t: Sys)
    requires Shapes(s.ctl) && Phases(s.ctl) && SysInv(s) && BeingPolled(s, k) && PollAnswers(s, k, check, t)
    ensures SysInv(t)
  {
    NoCallsWhilePolling(s);
    assert JobTracked(s, k);
    PollTracks(s, k, check, t);
    forall j ensures JobTracked(t, j) {
      assert JobTracked(s, j);
      if j != k {
        PollLeavesOthers(s, k, check, t, j);
        SameIsTracked(s, t, j);
      }
    }
    forall j | j in t.ctl.polls && t.ctl.polls[j].reply.Some? && Over(t.ctl.polls[j].reply.value) ensures Settled(t, j) {
      if j != k {
        PollOfOthersTells(s, k, check, t, j);
      }
    }
    PollLosesOnlyEnded(s, k, check, t);
  }

  lemma PollLosesOnlyEnded(s: Sys, k: JobKey, check: Check, t: Sys)
    requires LostHaveEnded(s) && BeingPolled(s, k) && PollAnswers(s, k, check, t)
    ensures LostHaveEnded(t)
  {
    forall j | j in t.lostTrack ensures LostHasEnded(t.ctl, j) {
      assert j in s.lostTrack ==> LostHasEnded(s.ctl, j);
    }
  }

  lemma UnansweredTracks(s: Sys, k: JobKey, arrived: bool, t: Sys)
    requires Shapes(s.ctl) && Phases(s.ctl) && JobTracked(s, k) && s.sent == {}
    requires SysNext(s, PollUnanswered(k, arrived), t)
    ensures JobTracked(t, k)
  {
    WhilePolling(s.ctl, k);
    assert OnlyAt(s, k, JobSpot(s, k).node);
    forall q: Spot | q.key == k && Mentioned(t, q) ensures q == JobSpot(s, k) {
      assert Mentioned(s, q);
    }
  }

  lemma UnansweredLeavesOthers(s: Sys, k: JobKey, arrived: bool, t: Sys, j: JobKey)
    requires SysNext(s, PollUnanswered(k, arrived), t) && j != k
    ensures SameAround(s, t, j) && (j in t.ctl.polls <==> j in s.ctl.polls)
    ensures j in s.ctl.polls ==> t.ctl.polls[j] == s.ctl.polls[j]
  {
  }

  lemma UnansweredOthersTell(s: Sys, k: JobKey, arrived: bool, t: Sys)
    requires PollsTell(s) && LostHaveEnded(s) && SysNext(s, PollUnanswered(k, arrived), t)
    ensures PollsTell(t) && LostHaveEnded(t)
  {
    assert t.ctl.polls[k].reply == Some(NoAnswer);
    forall j | j in t.ctl.polls && t.ctl.polls[j].reply.Some? && Over(t.ctl.polls[j].reply.value) ensures Settled(t, j) {
      UnansweredLeavesOthers(s, k, arrived, t, j);
      SameIsSettled(s, t, j);
    }
    forall j | j in t.lostTrack ensures LostHasEnded(t.ctl, j) {
      assert LostHasEnded(s.ctl, j);
    }
  }

  lemma UnansweredKeeps(s: Sys, k: JobKey, arrived: bool, t: Sys)
    requires Shapes(s.ctl) && Phases(s.ctl) && SysInv(s) && SysNext(s, PollUnanswered(k, arrived), t)
    ensures SysInv(t)
  {
    NoCallsWhilePolling(s);
    assert JobTracked(s, k);
    UnansweredTracks(s, k, arrived, t);
    forall j ensures JobTracked(t, j) {
      assert JobTracked(s, j);
      if j != k {
        UnansweredLeavesOthers(s, k, arrived, t, j);
        SameIsTracked(s, t, j);
      }
    }
    UnansweredOthersTell(s, k, arrived, t);
  }

  /** What a late request starts is a stray, so nothing of its job that the controller goes by has changed. */
  lemma LateTracks(s: Sys, p: Spot, spawn: Spawn, t: Sys, k: JobKey)
    requires JobTracked(s, k) && ArrivesLate(s, p, spawn, t)
    ensures JobTracked(t, k)
  {
    assert forall q: Spot :: Mentioned(t, q) <==> Mentioned(s, q);
  }

  lemma LateIsSettled(s: Sys, p: Spot, spawn: Spawn, t: Sys, k: JobKey)
    requires Settled(s, k) && ArrivesLate(s, p, spawn, t)
    ensures Settled(t, k)
  {
  }

  lemma ArriveLateKeeps(s: Sys, p: Spot, spawn: Spawn, t: Sys)
    requires SysInv(s) && ArrivesLate(s, p, spawn, t)
    ensures SysInv(t)
  {
    forall k ensures JobTracked(t, k) {
      LateTracks(s, p, spawn, t, k);
    }
    CallsStayOpen(s, t);
    forall k | k in t.ctl.polls && t.ctl.polls[k].reply.Some? && Over(t.ctl.polls[k].reply.value) ensures Settled(t, k) {
      LateIsSettled(s, p, spawn, t, k);
    }
    forall k | k in t.lostTrack ensures LostHasEnded(t.ctl, k) {
      assert LostHasEnded(s.ctl, k);
    }
  }

  /** Processes only change, end or are forgotten. */
  lemma FewerProcessesKeep(s: Sys, t: Sys)
    requires SysInv(s) && t == s.(processes := t.processes)
    requires forall p | p in t.processes :: p in s.processes && (t.processes[p].Alive? ==> s.processes[p].Alive?)
    ensures SysInv(t)
  {
    forall j ensures JobTracked(t, j) {
      assert JobTracked(s, j);
      SameIsTracked(s, t, j);
    }
    forall j | j in t.sent ensures Unresolved(t, j) {
      assert Unresolved(s, j);
    }
    PollsUnchanged(s, t);
  }

  /** Starting again, the controller has everything of a job it took back at one node, and has sent nothing yet. */
  lemma CrashKeeps(s: Sys, found: set<JobKey>, order: seq<JobKey>, left: set<Spot>, t: Sys)
    requires Crashes(s, found, order, left, t)
    ensures SysInv(t)
  {
    NothingInFlight(s.ctl, found, order, t.ctl);
    forall k ensures JobTracked(t, k) {
      CrashTracks(t, k);
    }
  }

  lemma NothingInFlight(c: Ctl, found: set<JobKey>, order: seq<JobKey>, d: Ctl)
    requires Next(c, Restart(found, order), d)
    ensures d.tasks == map[] && d.polls == map[] && d.released == map[]
  {
  }

  lemma CrashTracks(t: Sys, k: JobKey)
    requires t.sent == {} && t.wire == {} && t.replies == map[] && t.starts == multiset{}
    requires t.strays == UnclaimedProcesses(t.ctl, t.processes)
    ensures JobTracked(t, k)
  {
  }

  lemma SysStepKeeps(s: Sys, step: SysStep, t: Sys)
    requires LedgerInv(s.ctl) && DepInv(s.ctl) && SysInv(s) && SysNext(s, step, t)
    ensures SysInv(t)
  {
    match step
    case Inside(cs) => InsideKeeps(s, cs, t);
    case NotSent(k) => NotSentKeeps(s, k, t);
    case Send(k) => SendKeeps(s, k, t);
    case Arrive(p, spawn) => ArriveKeeps(s, p, spawn, t);
    case ArriveLate(p, spawn) => ArriveLateKeeps(s, p, spawn, t);
    case ReplyCame(k) => ReplyKeeps(s, k, t);
    case ReplyLost(k) => ReplyKeeps(s, k, t);
    case PollAnswered(k, check) => PollKeeps(s, k, check, t);
    case PollUnanswered(k, arrived) => UnansweredKeeps(s, k, arrived, t);
    case ProcessChanges(p, now) => FewerProcessesKeep(s, t);
    case Forgets(p) => FewerProcessesKeep(s, t);
    case Crash(found, order, left) => CrashKeeps(s, found, order, left, t);
  }

  // Every run

  ghost predicate SysInit(s: Sys) {
    Init(s.ctl) && s.processes == map[] && s.wire == {} && s.replies == map[] && s.sent == {}
    && s.late == {} && s.starts == multiset{} && s.lostTrack == {} && s.strays == {}
  }

  ghost predicate IsSysRun(states: seq<Sys>, steps: seq<SysStep>) {
    && |states| == |steps| + 1
    && SysInit(states[0])
    && forall i | 0 <= i < |steps| :: SysNext(states[i], steps[i], states[i + 1])
  }

  lemma SysStepKeepsAll(s: Sys, step: SysStep, t: Sys)
    requires AllInv(s.ctl) && SysInv(s) && SysNext(s, step, t)
    ensures AllInv(t.ctl)
  {
    if step.Crash? {
      StepKeeps(s.ctl, Restart(step.found, step.order), t.ctl);
      return;
    }
    SysStepIsStep(s, step, t);
    if t.ctl != s.ctl {
      var cs :| Next(s.ctl, cs, t.ctl) && !cs.Restart?;
      StepKeeps(s.ctl, cs, t.ctl);
    }
  }

  lemma {:induction false} NextSysStateIsGood(states: seq<Sys>, steps: seq<SysStep>, i: nat)
    requires IsSysRun(states, steps) && i < |steps|
    ensures AllInv(states[i + 1].ctl) && SysInv(states[i + 1])
    decreases i, 1
  {
    EverySysStateIsGood(states, steps, i);
    SysStepKeepsAll(states[i], steps[i], states[i + 1]);
    SysStepKeeps(states[i], steps[i], states[i + 1]);
  }

  lemma {:induction false} EverySysStateIsGood(states: seq<Sys>, steps: seq<SysStep>, i: nat)
    requires IsSysRun(states, steps) && i < |states|
    ensures AllInv(states[i].ctl) && SysInv(states[i])
    decreases i, 0
  {
    if i == 0 {
      InitHolds(states[0].ctl);
    } else {
      NextSysStateIsGood(states, steps, i - 1);
    }
  }

  /** Between two starts of the controller, however it came to start, its requests start each job at most once, over all
      nodes and whatever replies are lost. */
  lemma StartedAtMostOnce(states: seq<Sys>, steps: seq<SysStep>, i: nat, k: JobKey)
    requires IsSysRun(states, steps) && i < |states|
    ensures states[i].starts[k] <= 1
  {
    EverySysStateIsGood(states, steps, i);
    assert JobTracked(states[i], k);
  }

  /** The controller books resources for the job at that node. */
  predicate BookedAtNode(c: Ctl, k: JobKey, node: nat) {
    ClaimOf(c, JobHolder(k)).Some? && ClaimOf(c, JobHolder(k)).value.node == node
  }

  lemma WhereaboutsAreBooked(c: Ctl, sent: set<JobKey>, k: JobKey)
    requires Shapes(c) && Whereabouts(c, sent, k).Some?
    ensures BookedAtNode(c, k, Whereabouts(c, sent, k).value)
  {
  }

  lemma EndedIsNotBooked(c: Ctl, k: JobKey, node: nat)
    requires Shapes(c) && HasEnded(c, k)
    ensures !BookedAtNode(c, k, node)
  {
  }

  /** A process that is alive, or may yet be started by a request under way, is booked at its node, unless its job ended
      on a node's word about a process that it misjudged. */
  lemma AliveIsBooked(s: Sys, p: Spot)
    requires Shapes(s.ctl) && SysInv(s)
    requires (p in s.processes && s.processes[p].Alive? && p !in s.strays) || p in s.wire
    ensures BookedAtNode(s.ctl, p.key, p.node) <==> !(p.key in s.lostTrack && HasEnded(s.ctl, p.key))
    ensures p in s.wire ==> BookedAtNode(s.ctl, p.key, p.node)
  {
    assert JobTracked(s, p.key);
    assert Mentioned(s, p);
    if Whereabouts(s.ctl, s.sent, p.key).Some? {
      WhereaboutsAreBooked(s.ctl, s.sent, p.key);
      if HasEnded(s.ctl, p.key) {
        EndedIsNotBooked(s.ctl, p.key, p.node);
      }
    } else {
      EndedIsNotBooked(s.ctl, p.key, p.node);
    }
  }

  /** In every state of every run, crashes included: only strays and jobs lost track of live unbooked. */
  lemma AliveIsAlwaysBooked(states: seq<Sys>, steps: seq<SysStep>, i: nat, p: Spot)
    requires IsSysRun(states, steps) && i < |states|
    requires p in states[i].processes && states[i].processes[p].Alive?
    ensures var s := states[i];
            !BookedAtNode(s.ctl, p.key, p.node) ==> p in s.strays || (p.key in s.lostTrack && HasEnded(s.ctl, p.key))
    ensures var s := states[i]; p.key in s.lostTrack && HasEnded(s.ctl, p.key) ==> !BookedAtNode(s.ctl, p.key, p.node)
  {
    EverySysStateIsGood(states, steps, i);
    if p !in states[i].strays {
      AliveIsBooked(states[i], p);
    } else if HasEnded(states[i].ctl, p.key) {
      EndedIsNotBooked(states[i].ctl, p.key, p.node);
    }
  }

  // Across a crash

  lemma RestartBooksFound(c: Ctl, found: set<JobKey>, d: Ctl, k: JobKey, node: nat)
    requires RowShapes(c) && Rebuilt(c, found, d)
    ensures BookedAtNode(d, k, node) <==> k in found && c.rows[k].held.value.node == node
    ensures BookedAtNode(d, k, node) <==> Whereabouts(d, {}, k) == Some(node)
  {
    RestoredClaim(c, found, d, JobHolder(k));
    RestoredExecutions(c, found, d, k);
    if k in d.jobs {
      RestoredRunning(c, found, d, k);
    }
  }

  lemma RestartBooks(c: Ctl, found: set<JobKey>, order: seq<JobKey>, d: Ctl, k: JobKey, node: nat)
    requires RowShapes(c) && Next(c, Restart(found, order), d)
    ensures BookedAtNode(d, k, node) <==> k in RunningRows(c.rows) && c.rows[k].held.value.node == node && k in found
    ensures BookedAtNode(d, k, node) <==> Whereabouts(d, {}, k) == Some(node)
  {
    RestartIsRebuilt(c, found, order);
    RestartBooksFound(c, found, d, k, node);
  }

  /** After a restart a process is booked at its node if and only if its job's row said Running there and it was found
      again; the others that nodes still know are the strays. */
  lemma CrashBooksFound(s: Sys, found: set<JobKey>, order: seq<JobKey>, left: set<Spot>, t: Sys, p: Spot)
    requires RowShapes(s.ctl) && Crashes(s, found, order, left, t)
    ensures BookedAtNode(t.ctl, p.key, p.node) <==>
            p.key in RunningRows(s.ctl.rows) && s.ctl.rows[p.key].held.value.node == p.node && p.key in found
    ensures p in t.processes ==> (p in t.strays <==> !BookedAtNode(t.ctl, p.key, p.node))
  {
    RestartBooks(s.ctl, found, order, t.ctl, p.key, p.node);
  }

  lemma RestoredRunning(c: Ctl, found: set<JobKey>, d: Ctl, k: JobKey)
    requires RowShapes(c) && Rebuilt(c, found, d) && k in d.jobs
    ensures d.jobs[k].state.Running? <==> k in found
  {
  }

  /** What is booked has a Running row, with its node, exactly once its job is Running and the section that started it has
      been written: a launch not yet flushed is what a crash makes a stray of. */
  lemma RowTellsWhatIsBooked(s: Sys, k: JobKey, node: nat)
    requires Shapes(s.ctl) && RowsInv(s.ctl) && ReleasedHaveEnded(s.ctl) && BookedAtNode(s.ctl, k, node)
    ensures k in RunningRows(s.ctl.rows) && s.ctl.rows[k].held.value.node == node <==>
            k in s.ctl.jobs && s.ctl.jobs[k].state.Running? && k !in s.ctl.toWrite
  {
    assert k in s.ctl.jobs;
    assert RowFollows(s.ctl, k);
  }

  /** What the code would have to rule out: a node that misjudges a process that is alive ends its job, as Failed or, if it
      was to be cancelled and counts as exited, as Cancelled, and what it holds is freed. Any running job can get there, in
      three steps once it is the last to be polled. */
  lemma MisjudgedProcessIsReleased(s: Sys, k: JobKey, check: Check) returns (asked: Sys, applying: Sys, freed: Sys)
    requires Shapes(s.ctl) && Phases(s.ctl) && BeingPolled(s, k)
    requires JobSpot(s, k) in s.processes && Misjudges(s.processes[JobSpot(s, k)], check)
    requires forall j | j in s.ctl.polls && j != k :: s.ctl.polls[j].reply.Some?
    ensures SysNext(s, PollAnswered(k, check), asked)
    ensures SysNext(asked, Inside(Poll(StartApplyingPolls)), applying)
    ensures SysNext(applying, Inside(Poll(ApplyPoll(k))), freed)
    ensures freed.processes == s.processes && !BookedAtNode(freed.ctl, k, JobSpot(s, k).node)
    ensures k in freed.ctl.jobs && freed.ctl.jobs[k].state ==
            if check.FindsNothing? && s.ctl.polls[k].cancelling then JobState.Cancelled else Failed
  {
    asked := Misjudged(s, k, check);
    MisjudgedAnswer(s, k, check);
    applying := asked.(ctl := asked.ctl.(phase := ApplyingPolls));
    LastAnswerIsApplied(asked, applying, k);
    freed := applying.(ctl := PollApplied(applying.ctl, k));
    WhilePolling(s.ctl, k);
    FreedAfterPoll(applying.ctl, k, JobSpot(s, k).node);
  }

  lemma LastAnswerIsApplied(s: Sys, t: Sys, k: JobKey)
    requires s.ctl.phase.Polling? && AllPolled(s.ctl) && k in s.ctl.polls && t == s.(ctl := s.ctl.(phase := ApplyingPolls))
    ensures SysNext(s, Inside(Poll(StartApplyingPolls)), t)
    ensures SysNext(t, Inside(Poll(ApplyPoll(k))), t.(ctl := PollApplied(t.ctl, k)))
  {
  }

  function MisjudgedReply(check: Check): PollReply {
    if check.FindsNothing? then Exited(-1) else PollFailed
  }

  /** After the node's answer. */
  ghost function Misjudged(s: Sys, k: JobKey, check: Check): Sys
    requires BeingPolled(s, k)
  {
    s.(ctl := WithPoll(s.ctl, k, MisjudgedReply(check)), wire := s.wire - {JobSpot(s, k)}, lostTrack := s.lostTrack + {k},
       strays := s.strays - {JobSpot(s, k)})
  }

  lemma MisjudgedAnswer(s: Sys, k: JobKey, check: Check)
    requires BeingPolled(s, k) && JobSpot(s, k) in s.processes && Misjudges(s.processes[JobSpot(s, k)], check)
    ensures SysNext(s, PollAnswered(k, check), Misjudged(s, k, check))
  {
  }

  lemma FreedAfterPoll(c: Ctl, k: JobKey, node: nat)
    requires c.tasks == map[] && k in c.jobs && k in c.polls && c.polls[k].reply in LOST_REPLIES
    ensures !BookedAtNode(PollApplied(c, k), k, node)
    ensures PollApplied(c, k).jobs[k].state ==
            if c.polls[k].reply == Some(Exited(-1)) && c.polls[k].cancelling then JobState.Cancelled else Failed
  {
  }

  /** The only such replies: a poll ends the job of a living process exactly when its node misjudges it. */
  lemma OnlyMisjudgedIsReleased(s: Sys, k: JobKey, check: Check, t: Sys)
    requires Shapes(s.ctl) && Phases(s.ctl) && SysInv(s) && SysNext(s, PollAnswered(k, check), t)
    ensures var p := JobSpot(s, k);
            Over(t.ctl.polls[k].reply.value) && p in t.processes && t.processes[p].Alive? <==>
            p in s.processes && Misjudges(s.processes[p], check)
  {
  }

  // What the counts and remembered sets are

  /** A start is counted exactly when a request made since the controller last started finds no process and starts one. */
  lemma StartsAreCounted(s: Sys, step: SysStep, t: Sys, k: JobKey)
    requires SysNext(s, step, t) && !step.Crash?
    ensures t.starts[k] == s.starts[k] + if && step.Arrive? && step.spot.key == k && step.spawn.Starts?
                                            && step.spot !in s.processes then 1 else 0
    ensures step.Arrive? && step.spawn.Starts? && step.spot !in s.processes ==>
              step.spot in t.processes && t.processes[step.spot] == STARTED
  {
  }

  /** A process becomes a stray only by a crash or when a late request starts it. */
  lemma StraysComeFrom(s: Sys, step: SysStep, t: Sys, p: Spot)
    requires SysNext(s, step, t) && p in t.strays && p !in s.strays
    ensures step.Crash? || (step.ArriveLate? && step.spot == p && step.spawn.Starts? && p !in s.processes)
  {
  }

  /** A job is lost track of only by a poll of it that its node answers as if its living process had ended, or were unknown. */
  lemma LostOnlyByMisjudging(s: Sys, step: SysStep, t: Sys, k: JobKey)
    requires SysNext(s, step, t) && k in t.lostTrack && k !in s.lostTrack
    ensures step.PollAnswered? && step.key == k && !step.check.Tells?
    ensures k in s.ctl.jobs && s.ctl.jobs[k].executions != [] && JobSpot(s, k) in s.processes
    ensures var process := s.processes[JobSpot(s, k)];
            process.Alive? && (step.check.FindsNothing? ==> !process.child)
  {
  }
}

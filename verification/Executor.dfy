/** What a node does with a Launch or a Poll, and what the controller makes of the reply or of none:
 *  src/executor/mod.rs, src/executor/remote.rs, src/executor/shell.rs, src/worker.rs. */
module Executor {
  import opened Wrappers
  import opened Controller

  /** What is left of a job on a node: it runs, in its scope or with systemd still moving it there, with a wrapper that the
   *  daemon itself started and can wait for, or without; or it is over, with or without a code that its wrapper wrote down
   *  for a later daemon. */
  datatype Process = Alive(scoped: bool, child: bool) | Ended(code: int, filed: bool)

  /** What a node's daemon can find without its table. */
  predicate LeavesTrace(process: Process) {
    match process
    case Alive(scoped, _) => scoped
    case Ended(_, filed) => filed
  }

  /** What a later daemon has of an earlier one's processes: it can wait for none of them. */
  function Orphaned<K>(processes: map<K, Process>): map<K, Process> {
    map k | k in processes :: if processes[k].Alive? then processes[k].(child := false) else processes[k]
  }

  /** What a node knows: the processes in its table, and with scopes those that left a trace. */
  function Remembered<K>(processes: map<K, Process>, table: set<K>, scopes: bool): map<K, Process> {
    map k | k in processes && (k in table || (scopes && LeavesTrace(processes[k]))) :: processes[k]
  }

  /** The replies to worker requests; `OtherReply` is any other message of the protocol. */
  datatype Response =
    | LaunchedReply
    | RejectedReply
    | ErrorReply
    | PolledReply(exitCode: Option<int>)
    | KilledReply
    | OtherReply

  datatype ExecutorError = NodeUnreachable | Rejected | Remote

  /** How starting a process would go. */
  datatype Spawn = Starts | Refused | Breaks

  /** As a node's daemon starts it. */
  const STARTED := Alive(false, true)

  /** How looking at a process goes. With scopes it can only find nothing, when systemd and the cgroup say nothing; without
   *  them, or when a daemon doesn't find the job at all, it is an error. */
  datatype Check = Tells | FindsNothing | Fails

  lemma RememberStarted<K>(processes: map<K, Process>, table: set<K>, scopes: bool, k: K)
    ensures Remembered(processes[k := STARTED], table + {k}, scopes) ==
            Remembered(processes, table, scopes)[k := STARTED]
  {
  }

  lemma RememberFound<K>(processes: map<K, Process>, table: set<K>, scopes: bool, k: K)
    requires k in Remembered(processes, table, scopes)
    ensures Remembered(processes, table + {k}, scopes) == Remembered(processes, table, scopes)
  {
  }

  /** What a node does with a Launch; `processes` are those it knows. */
  function NodeLaunch<K>(processes: map<K, Process>, k: K, spawn: Spawn): (map<K, Process>, Response) {
    if k in processes then (processes, LaunchedReply)
    else match spawn
      case Starts => (processes[k := STARTED], LaunchedReply)
      case Refused => (processes, RejectedReply)
      case Breaks => (processes, ErrorReply)
  }

  /** A process that nothing is found of counts as ended without a code, unless its daemon can wait for it. */
  function NodePoll<K>(processes: map<K, Process>, k: K, check: Check): Response {
    if k !in processes || check.Fails? then ErrorReply
    else match processes[k]
      case Alive(_, child) => PolledReply(if check.FindsNothing? && !child then Some(-1) else None)
      case Ended(code, _) => PolledReply(Some(code))
  }

  /** The node takes a living process for one that ended, or for one that it can say nothing of. */
  predicate Misjudges(process: Process, check: Check) {
    process.Alive? && (check.Fails? || (check.FindsNothing? && !process.child))
  }

  /** After its daemon restarted, a node starts a job again, and answers a poll of it with an error, exactly when it has no
   *  scopes or the process left no trace. */
  lemma RestartForgets<K>(processes: map<K, Process>, scopes: bool, k: K)
    requires k in processes
    ensures var known := Remembered(Orphaned(processes), {}, scopes);
            var (now, reply) := NodeLaunch(known, k, Starts);
            && (now != known <==> !(scopes && LeavesTrace(processes[k])))
            && (NodePoll(known, k, Tells).ErrorReply? <==> !(scopes && LeavesTrace(processes[k])))
  {
    var known := Remembered(Orphaned(processes), {}, scopes);
    assert k in known[k := STARTED];
  }

  /** A job that was started, ran in its scope and was killed: after a restart the node knows nothing of it. */
  lemma KilledJobIsForgotten<K>(k: K)
    ensures var started := NodeLaunch(map[], k, Starts).0;
            var killed := started[k := Ended(-1, false)];
            var known := Remembered(Orphaned(killed), {}, true);
            && NodePoll(killed, k, Tells) == PolledReply(Some(-1))
            && NodePoll(known, k, Tells) == ErrorReply
            && k !in known && k in NodeLaunch(known, k, Starts).0
  {
  }

  /** What a launch comes to; `reply` is None when the request went out and no reply came back. */
  function LaunchOutcome(reply: Option<Response>): Result<(), ExecutorError> {
    match reply
    case None => Success(()) // a poll will tell
    case Some(LaunchedReply) => Success(())
    case Some(RejectedReply) => Failure(Rejected)
    case Some(_) => Failure(Remote)
  }

  function PollOutcome(reply: Option<Response>): Result<Option<int>, ExecutorError> {
    match reply
    case None => Failure(NodeUnreachable)
    case Some(PolledReply(exitCode)) => Success(exitCode)
    case Some(_) => Failure(Remote)
  }

  /** What the scheduler distinguishes. */
  function AsLaunchResult(r: Result<(), ExecutorError>): LaunchResult {
    match r
    case Success(_) => Launched
    case Failure(NodeUnreachable) => Unreachable
    case Failure(Rejected) => TurnedDown
    case Failure(Remote) => LaunchFailed
  }

  function AsPollReply(r: Result<Option<int>, ExecutorError>): PollReply {
    match r
    case Success(None) => StillRunning
    case Success(Some(code)) => Exited(code)
    case Failure(NodeUnreachable) => NoAnswer
    case Failure(_) => PollFailed
  }

  /** A poll's reply ends the job of a living process exactly when the node misjudges it. */
  lemma OnlyMisjudgedEnds<K>(processes: map<K, Process>, k: K, check: Check)
    requires k in processes && processes[k].Alive?
    ensures Over(AsPollReply(PollOutcome(Some(NodePoll(processes, k, check))))) <==> Misjudges(processes[k], check)
  {
  }

  // Qualifications

  /** Whether a round of checks takes a qualification for over; one that still runs past its timeout is. */
  predicate QualificationOver(polled: Result<Option<int>, ExecutorError>, late: bool) {
    match polled
    case Success(None) => late
    case Success(Some(_)) => true
    case Failure(error) => !error.NodeUnreachable?
  }

  /** Past its timeout it is stopped; `stops` is whether that takes effect. */
  function AfterQualification<K>(processes: map<K, Process>, k: K, check: Check, late: bool, stops: bool): map<K, Process>
    requires k in processes
  {
    if NodePoll(processes, k, check) == PolledReply(None) && late && stops then processes[k := Ended(-1, false)]
    else processes
  }

  /** The card of a qualification that is alive, and stays so, is given back exactly when its node misjudges it, or when it
      is past its timeout and stopping it has no effect: what came of that is not looked at. */
  lemma LivingQualificationIsOver<K>(processes: map<K, Process>, k: K, check: Check, late: bool, stops: bool)
    requires k in processes && processes[k].Alive?
    ensures QualificationOver(PollOutcome(Some(NodePoll(processes, k, check))), late)
            && AfterQualification(processes, k, check, late, stops)[k].Alive?
            <==> Misjudges(processes[k], check) || (late && !stops)
    ensures !QualificationOver(PollOutcome(None), late)
  {
  }
}

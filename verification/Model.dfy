/** Job and run states: src/workflow/model.rs. */
module Model {
  import opened Wrappers
  import opened Spec
  import opened Placement

  datatype JobState =
    | Pending     // waiting for dependencies
    | Queued      // dependencies succeeded, waiting for resources
    | Running
    | Succeeded
    | Failed
    | Skipped     // a dependency ended badly
    | Cancelled
    | TimedOut
    | Interrupted // could not be found again after a restart
  {
    predicate IsTerminal() {
      Succeeded? || Failed? || Skipped? || Cancelled? || TimedOut? || Interrupted?
    }

    /** Ended without success: what dependents are skipped for. */
    predicate EndedBadly() {
      Failed? || Skipped? || Cancelled? || TimedOut? || Interrupted?
    }

    /** Left Pending other than by being skipped. */
    predicate Admitted() {
      !Pending? && !Skipped?
    }
  }

  datatype RunState = RunPending | RunRunning | RunSucceeded | RunFailed | RunCancelled

  predicate AnyIs(states: seq<JobState>, wanted: set<JobState>) {
    exists i | 0 <= i < |states| :: states[i] in wanted
  }

  /** A run's state from its jobs', the first rule that applies. */
  function DeriveRunState(states: seq<JobState>): RunState {
    if AnyIs(states, {Failed, TimedOut, Interrupted}) then RunFailed
    else if AnyIs(states, {Cancelled}) then RunCancelled
    else if AnyIs(states, {Running, Queued}) then RunRunning
    else if states != [] && forall i | 0 <= i < |states| :: states[i] in {Succeeded, Skipped} then RunSucceeded
    else RunPending
  }

  /** A run's state by its jobs', in any order: Failed if one failed, was lost or timed out; else Cancelled if one was; else
      Running if one runs or waits for resources; else Succeeded if all did or were skipped, and there is one; and Pending
      if they only wait for one another, or for nothing. */
  lemma DerivedIs(states: seq<JobState>)
    ensures var state := DeriveRunState(states);
            var bad := exists i | 0 <= i < |states| :: states[i] in {Failed, TimedOut, Interrupted};
            var cancelled := exists i | 0 <= i < |states| :: states[i] == Cancelled;
            var active := exists i | 0 <= i < |states| :: states[i] in {Running, Queued};
            var waiting := exists i | 0 <= i < |states| :: states[i] == Pending;
            && (state == RunFailed <==> bad)
            && (state == RunCancelled <==> !bad && cancelled)
            && (state == RunRunning <==> !bad && !cancelled && active)
            && (state == RunSucceeded <==> !bad && !cancelled && !active && !waiting && states != [])
            && (state == RunPending <==> !bad && !cancelled && !active && (waiting || states == []))
  {
    if AnyIs(states, {Cancelled}) {
      var i :| 0 <= i < |states| && states[i] in {Cancelled};
      assert states[i] == Cancelled;
    }
  }

  /** A placement that a job has taken up. */
  type Execution = Placed

  datatype JobInstance = JobInstance(spec: JobSpec, state: JobState, executions: seq<Execution>, cancelling: bool,
                                     exitCode: Option<int>, rejected: seq<nat>)

  function NewJob(spec: JobSpec): JobInstance {
    JobInstance(spec, Pending, [], false, None, [])
  }

  predicate RejectedBy(job: JobInstance, node: nat) {
    node in job.rejected
  }
}

/** Which jobs a cancel reaches, over whole runs with crashes: src/ipc/server.rs, src/scheduler/mod.rs. */
module Cancels {
  import opened Wrappers
  import opened Spec
  import opened Pool
  import opened Model
  import opened Controller
  import opened Ledger
  import opened Dependencies
  import opened Stored
  import opened Recovery
  import opened Decisions

  /** The job is being cancelled, or ended so, by what is in memory, in the poll under way, or by its row. */
  predicate Marked(c: Ctl, k: JobKey) {
    || (k in c.jobs && (c.jobs[k].cancelling || c.jobs[k].state == JobState.Cancelled))
    || (k in c.polls && c.polls[k].cancelling)
    || (k in c.rows && c.rows[k].state == JobState.Cancelled)
  }

  /** A client cancels the job's run while the job is running. */
  predicate Cancels(c: Ctl, step: Step, k: JobKey) {
    step == Client(CancelRun(k.run)) && k in c.jobs && c.jobs[k].state == Running
  }

  lemma ClientMarks(c: Ctl, step: ClientStep, d: Ctl, k: JobKey)
    requires Shapes(c) && ClientNext(c, step, d) && Marked(d, k)
    ensures Marked(c, k) || Cancels(c, Client(step), k)
  {
    match step
    case SubmitInsert(run) => SubmittedJobs(c, run);
    case CancelRun(run) => CancelMarks(c.jobs, run);
    case _ =>
  }

  lemma StartMarks(c: Ctl, j: JobKey, k: JobKey)
    requires j in c.tasks && j in c.jobs && Marked(Started(c, j), k)
    ensures Marked(c, k)
  {
  }

  lemma NotStartedMarks(pools: seq<PoolState>, was: JobInstance, task: AdmitTask)
    ensures var job := NotStarted(pools, was, task);
            job.Some? ==> job.value.cancelling == was.cancelling && job.value.state in {was.state, Failed}
  {
  }

  lemma GiveBackMarks(c: Ctl, j: JobKey, job: Option<JobInstance>, k: JobKey)
    requires j in c.tasks && j in c.jobs && Marked(GivenBack(c, j, job), k)
    requires job.Some? ==> job.value.cancelling == c.jobs[j].cancelling && job.value.state in {c.jobs[j].state, Failed}
    ensures Marked(c, k)
  {
  }

  lemma LaunchMarks(c: Ctl, j: JobKey, k: JobKey)
    requires j in c.tasks && j in c.jobs && Marked(LaunchApplied(c, j), k)
    ensures Marked(c, k)
  {
    if c.tasks[j].result == Some(Launched) {
      StartMarks(c, j, k);
    } else {
      NotStartedMarks(c.pools, c.jobs[j], c.tasks[j]);
      GiveBackMarks(c, j, NotStarted(c.pools, c.jobs[j], c.tasks[j]), k);
    }
  }

  lemma AdmitMarks(c: Ctl, step: AdmitStep, d: Ctl, k: JobKey)
    requires LedgerInv(c) && AdmitNext(c, step, d) && Marked(d, k)
    ensures Marked(c, k)
  {
    match step
    case AdvancePending => QueuedExactly(c);
    case CascadeSkipped => SkippedExactly(c);
    case ApplyLaunch(j) => LaunchMarks(c, j, k);
    case _ =>
  }

  lemma PolledMarks(c: Ctl, j: JobKey, k: JobKey)
    requires LedgerInv(c) && c.tasks == map[] && j in c.polls && c.polls[j].reply.Some? && Marked(PollApplied(c, j), k)
    ensures Marked(c, k)
  {
    assert GoodClaim(c.pools, ClaimOf(c, JobHolder(j)).value);
    PollBecomes(c, j);
  }

  lemma PollMarks(c: Ctl, step: PollStep, d: Ctl, k: JobKey)
    requires LedgerInv(c) && PollNext(c, step, d) && Marked(d, k)
    ensures Marked(c, k)
  {
    match step
    case ApplyPoll(j) => PolledMarks(c, j, k);
    case _ =>
  }

  lemma WriteMarks(c: Ctl, j: JobKey, k: JobKey)
    requires Shapes(c) && Marked(Written(c, j), k)
    ensures Marked(c, k)
  {
    if j in c.jobs {
      WriteSays(c, j);
    }
  }

  lemma RestartMarks(c: Ctl, found: set<JobKey>, order: seq<JobKey>, d: Ctl, k: JobKey)
    requires Next(c, Restart(found, order), d) && Marked(d, k)
    ensures Marked(c, k)
  {
    TakenBackRows(c, found, order, d);
    if k in d.jobs {
      TakenBackAs(c, found, order, d, k);
    }
  }

  /** Only a cancel of its own run marks a job, and only while it is running. */
  lemma StepMarks(c: Ctl, step: Step, d: Ctl, k: JobKey)
    requires LedgerInv(c) && Next(c, step, d) && Marked(d, k)
    ensures Marked(c, k) || Cancels(c, step, k)
  {
    match step
    case Client(s) => ClientMarks(c, s, d, k);
    case Admit(s) => AdmitMarks(c, s, d, k);
    case Poll(s) => PollMarks(c, s, d, k);
    case Cards(s) => CardFrame(c, s, d);
    case Flush(j) => WriteMarks(c, j, k);
    case Restart(found, order) => RestartMarks(c, found, order, d, k);
  }

  /** In every run, crashes included: a job is being cancelled, or ended as Cancelled, in memory or by its row, only if a
      cancel of its own run came while it was running. */
  lemma {:induction false} CancelledByItsRun(states: seq<Ctl>, steps: seq<Step>, i: nat, k: JobKey) returns (n: nat)
    requires IsRun(states, steps) && i < |states| && Marked(states[i], k)
    ensures n < i && Cancels(states[n], steps[n], k)
    decreases i
  {
    NoneMarkedAtFirst(states, steps, k);
    if Marked(states[i - 1], k) {
      n := CancelledByItsRun(states, steps, i - 1, k);
    } else {
      MarkedNow(states, steps, i - 1, k);
      n := i - 1;
    }
  }

  lemma NoneMarkedAtFirst(states: seq<Ctl>, steps: seq<Step>, k: JobKey)
    requires IsRun(states, steps)
    ensures !Marked(states[0], k)
  {
  }

  lemma MarkedNow(states: seq<Ctl>, steps: seq<Step>, i: nat, k: JobKey)
    requires IsRun(states, steps) && i < |steps| && Marked(states[i + 1], k) && !Marked(states[i], k)
    ensures Cancels(states[i], steps[i], k)
  {
    EveryStateIsGood(states, steps, i);
    StepMarks(states[i], steps[i], states[i + 1], k);
  }
}

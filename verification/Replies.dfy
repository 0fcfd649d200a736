/** What a node's answer makes of a job, from the process on the node to the job's state and what it holds:
 *  src/worker.rs, src/executor/remote.rs, src/scheduler/mod.rs. */
module Replies {
  import opened Wrappers
  import opened Spec
  import opened Pool
  import opened Placement
  import opened Model
  import opened Controller
  import opened Ledger
  import opened Executor
  import opened Decisions
  import opened Protocol

  // On the node

  /** A request whose job the node knows starts nothing and is answered as launched; otherwise the answer says how the start
      went, and the process is there exactly if it succeeded. */
  lemma NodeAnswersLaunch(s: Sys, p: Spot, spawn: Spawn, t: Sys)
    requires SysNext(s, Arrive(p, spawn), t) && p.key in s.sent
    ensures p in t.replies && t.replies[p] ==
            if p in s.processes then LaunchedReply
            else match spawn
                 case Starts => LaunchedReply
                 case Refused => RejectedReply
                 case Breaks => ErrorReply
    ensures t.processes == if p in s.processes || !spawn.Starts? then s.processes else s.processes[p := Alive(false, true)]
  {
  }

  // A launch's reply and the job

  /** The job after its launch: what the reply said, once it is applied. `u` is any later state in which the launch's result
      is still the one that the reply gave. */
  ghost predicate AppliesLaunch(t: Sys, u: Sys, k: JobKey, v: Sys) {
    && k in t.ctl.tasks && k in u.ctl.tasks && u.ctl.tasks[k] == t.ctl.tasks[k]
    && LedgerInv(u.ctl) && SysNext(u, Inside(Admit(ApplyLaunch(k))), v)
  }

  lemma AppliedTask(u: Sys, k: JobKey, v: Sys)
    requires LedgerInv(u.ctl) && SysNext(u, Inside(Admit(ApplyLaunch(k))), v)
    ensures k in u.ctl.tasks && k in u.ctl.jobs && u.ctl.tasks[k].placed.node < |u.ctl.pools|
    ensures v.ctl == LaunchApplied(u.ctl, k)
  {
    assert GoodClaim(u.ctl.pools, ClaimOf(u.ctl, JobHolder(k)).value);
  }

  predicate RoomElsewhere(pools: seq<PoolState>, rejected: seq<nat>, resources: ResourceSpec) {
    exists n | 0 <= n < |pools| :: n !in rejected && RoomFor(pools[n].total, resources)
  }

  /** A node's reply decides: launched, and the job runs where it was sent, with what was reserved; rejected, and that node
      counts as having turned it down, and it goes on waiting exactly if another has room for it; anything else, and it
      failed. Unless it runs, what was reserved is given back. */
  lemma LaunchReplyDecides(s: Sys, k: JobKey, t: Sys, u: Sys, v: Sys)
    requires SysNext(s, ReplyCame(k), t) && AppliesLaunch(t, u, k, v)
    ensures k in s.ctl.tasks && TaskSpot(s, k) in s.replies && k in u.ctl.jobs
    ensures s.ctl.tasks[k].placed.node < |u.ctl.pools|
    ensures var placed, was := s.ctl.tasks[k].placed, u.ctl.jobs[k];
            var given := u.ctl.pools[placed.node := Released(u.ctl.pools[placed.node], placed.allocation)];
            var rejected := was.rejected + [placed.node];
            match s.replies[TaskSpot(s, k)]
            case LaunchedReply =>
              v.ctl.jobs == u.ctl.jobs[k := was.(state := Running, executions := [placed])] && v.ctl.pools == u.ctl.pools
            case RejectedReply =>
              && v.ctl.pools == given
              && v.ctl.jobs == u.ctl.jobs[
                   k := was.(rejected := rejected,
                             state := if RoomElsewhere(u.ctl.pools, rejected, was.spec.resources) then was.state else Failed)]
            case _ => v.ctl.jobs == u.ctl.jobs[k := was.(state := Failed)] && v.ctl.pools == given
  {
    ReplySays(s, k, t);
    AppliedTask(u, k, v);
    LaunchBecomes(u.ctl, k);
  }

  lemma ReplySays(s: Sys, k: JobKey, t: Sys)
    requires SysNext(s, ReplyCame(k), t)
    ensures k in s.ctl.tasks && TaskSpot(s, k) in s.replies && k in t.ctl.tasks
    ensures t.ctl.tasks[k] == AdmitTask(s.ctl.tasks[k].placed,
                                        Some(match s.replies[TaskSpot(s, k)]
                                             case LaunchedReply => Launched
                                             case RejectedReply => TurnedDown
                                             case _ => LaunchFailed))
  {
  }

  /** A reply that never came, and the job runs. */
  lemma LostReplyDecides(s: Sys, k: JobKey, t: Sys, u: Sys, v: Sys)
    requires SysNext(s, ReplyLost(k), t) && AppliesLaunch(t, u, k, v)
    ensures k in s.ctl.tasks && k in u.ctl.jobs && v.ctl.pools == u.ctl.pools
    ensures v.ctl.jobs == u.ctl.jobs[k := u.ctl.jobs[k].(state := Running, executions := [s.ctl.tasks[k].placed])]
  {
    AppliedTask(u, k, v);
    LaunchBecomes(u.ctl, k);
  }

  /** A request that was never sent, and the job waits on as if nothing had been. */
  lemma UnsentDecides(s: Sys, k: JobKey, t: Sys, u: Sys, v: Sys)
    requires SysNext(s, NotSent(k), t) && AppliesLaunch(t, u, k, v)
    ensures k in s.ctl.tasks && s.ctl.tasks[k].placed.node < |u.ctl.pools|
    ensures var placed := s.ctl.tasks[k].placed;
            && v.ctl.jobs == u.ctl.jobs && v.ctl.toWrite == u.ctl.toWrite
            && v.ctl.pools == u.ctl.pools[placed.node := Released(u.ctl.pools[placed.node], placed.allocation)]
  {
    AppliedTask(u, k, v);
    LaunchBecomes(u.ctl, k);
  }

  // A poll's reply and the job

  ghost predicate AppliesPoll(t: Sys, u: Sys, k: JobKey, v: Sys) {
    && k in t.ctl.polls && k in u.ctl.polls && u.ctl.polls[k] == t.ctl.polls[k]
    && LedgerInv(u.ctl) && SysNext(u, Inside(Poll(ApplyPoll(k))), v)
  }

  lemma AppliedPoll(u: Sys, k: JobKey, v: Sys)
    requires LedgerInv(u.ctl) && SysNext(u, Inside(Poll(ApplyPoll(k))), v)
    ensures k in u.ctl.polls && k in u.ctl.jobs && |u.ctl.jobs[k].executions| == 1
    ensures u.ctl.jobs[k].executions[0].node < |u.ctl.pools| && v.ctl == PollApplied(u.ctl, k)
  {
    assert u.ctl.tasks == map[];
    assert GoodClaim(u.ctl.pools, ClaimOf(u.ctl, JobHolder(k)).value);
  }

  /** What the node sees of the job's process: nothing it can tell of, a process that runs, or one that ended. */
  datatype Sight = NoSight | Runs | Ended(code: int)

  function SightOf(processes: map<Spot, Process>, p: Spot, check: Check): Sight {
    if p !in processes then NoSight
    else match check
      case Fails => NoSight
      case Tells => if processes[p].Alive? then Runs else Sight.Ended(processes[p].code)
      case FindsNothing => if processes[p].Ended? then Sight.Ended(processes[p].code)
                           else if processes[p].child then Runs else Sight.Ended(-1)
  }

  /** The job after its poll: it goes on while its process runs; once that ended it is Cancelled if a cancel was known when
      the poll went out, and otherwise Succeeded for code 0 and Failed for any other, which it keeps; and it Failed if the
      node couldn't tell. What it held is given back exactly when it is over. */
  lemma PollReplyDecides(s: Sys, k: JobKey, check: Check, t: Sys, u: Sys, v: Sys)
    requires SysNext(s, PollAnswered(k, check), t) && AppliesPoll(t, u, k, v)
    ensures k in s.ctl.polls && k in u.ctl.jobs && |u.ctl.jobs[k].executions| == 1
    ensures u.ctl.jobs[k].executions[0].node < |u.ctl.pools|
    ensures var was, held, cancelling := u.ctl.jobs[k], u.ctl.jobs[k].executions[0], s.ctl.polls[k].cancelling;
            var given := u.ctl.pools[held.node := Released(u.ctl.pools[held.node], held.allocation)];
            match SightOf(s.processes, JobSpot(s, k), check)
            case Runs => v.ctl.jobs == u.ctl.jobs && v.ctl.pools == u.ctl.pools
            case NoSight => v.ctl.jobs == u.ctl.jobs[k := was.(executions := [], state := Failed)] && v.ctl.pools == given
            case Ended(code) =>
              && v.ctl.pools == given
              && v.ctl.jobs == u.ctl.jobs[
                   k := was.(executions := [], exitCode := Some(code),
                             state := if cancelling then JobState.Cancelled
                                      else if code == 0 then JobState.Succeeded else Failed)]
  {
    AnswerSays(s, k, check, t);
    AppliedPoll(u, k, v);
    PollBecomes(u.ctl, k);
  }

  lemma AnswerSays(s: Sys, k: JobKey, check: Check, t: Sys)
    requires SysNext(s, PollAnswered(k, check), t)
    ensures k in s.ctl.polls && k in t.ctl.polls && t.ctl.polls[k].cancelling == s.ctl.polls[k].cancelling
    ensures k in s.ctl.jobs && s.ctl.jobs[k].executions != []
    ensures t.ctl.polls[k].reply ==
            Some(match SightOf(s.processes, JobSpot(s, k), check)
                 case Runs => StillRunning
                 case NoSight => PollFailed
                 case Ended(code) => Exited(code))
  {
  }

  /** No reply to a poll, and nothing changes. */
  lemma LostPollDecides(s: Sys, k: JobKey, arrived: bool, t: Sys, u: Sys, v: Sys)
    requires SysNext(s, PollUnanswered(k, arrived), t) && AppliesPoll(t, u, k, v)
    ensures v.ctl.jobs == u.ctl.jobs && v.ctl.pools == u.ctl.pools && v.ctl.toWrite == u.ctl.toWrite
  {
    AppliedPoll(u, k, v);
    PollBecomes(u.ctl, k);
  }
}

/** What the scheduler's loops over many jobs come to: each is some steps of the controller, in the order the code's
 *  HashMap happens to give. */
module Sections {
  import opened Wrappers
  import opened Spec
  import opened Pool
  import opened Placement
  import opened Model
  import opened Controller
  import opened Ledger
  import opened Dependencies
  import opened Progress
  import Dag

  // Steps one after another

  ghost predicate IsPath(states: seq<Ctl>, steps: seq<Step>) {
    && |states| == |steps| + 1
    && forall i | 0 <= i < |steps| :: !steps[i].Restart? && Next(states[i], steps[i], states[i + 1])
  }

  /** Some steps of the controller lead from `c` to `d`. */
  ghost predicate Leads(c: Ctl, d: Ctl) {
    exists states, steps :: IsPath(states, steps) && states[0] == c && states[|steps|] == d
  }

  lemma LeadsNowhere(c: Ctl)
    ensures Leads(c, c)
  {
    var states: seq<Ctl>, steps: seq<Step> := [c], [];
    assert IsPath(states, steps) && states[0] == c && states[|steps|] == c;
  }

  lemma LeadsOn(c: Ctl, d: Ctl, step: Step, e: Ctl)
    requires Leads(c, d) && Next(d, step, e) && !step.Restart?
    ensures Leads(c, e)
  {
    var states, steps :| IsPath(states, steps) && states[0] == c && states[|steps|] == d;
    var states', steps' := states + [e], steps + [step];
    forall i | 0 <= i < |steps'| ensures !steps'[i].Restart? && Next(states'[i], steps'[i], states'[i + 1]) {
      if i < |steps| {
        assert Next(states[i], steps[i], states[i + 1]);
      }
    }
    assert IsPath(states', steps') && states'[0] == c && states'[|steps'|] == e;
  }

  lemma LeadsAcross(c: Ctl, d: Ctl, e: Ctl)
    requires Leads(c, d) && Leads(d, e)
    ensures Leads(c, e)
  {
    var states, steps :| IsPath(states, steps) && states[0] == d && states[|steps|] == e;
    LeadsAlong(c, states, steps, |steps|);
  }

  lemma {:induction false} LeadsAlong(c: Ctl, states: seq<Ctl>, steps: seq<Step>, i: nat)
    requires IsPath(states, steps) && Leads(c, states[0]) && i <= |steps|
    ensures Leads(c, states[i])
  {
    if i > 0 {
      LeadsAlong(c, states, steps, i - 1);
      LeadsOn(c, states[i - 1], steps[i - 1], states[i]);
    }
  }

  /** The books balance after any steps if they did before. */
  lemma LeadsKeepsBooks(c: Ctl, d: Ctl)
    requires LedgerInv(c) && Leads(c, d)
    ensures LedgerInv(d)
  {
    var states, steps :| IsPath(states, steps) && states[0] == c && states[|steps|] == d;
    PathKeepsBooks(states, steps, |steps|);
  }

  lemma {:induction false} PathKeepsBooks(states: seq<Ctl>, steps: seq<Step>, i: nat)
    requires IsPath(states, steps) && LedgerInv(states[0]) && i <= |steps|
    ensures LedgerInv(states[i])
  {
    if i > 0 {
      PathKeepsBooks(states, steps, i - 1);
      LedgerKept(states[i - 1], steps[i - 1], states[i]);
    }
  }

  // Flushing

  /** The rows after these jobs were written. */
  function RowsWritten(rows: map<JobKey, Row>, jobs: map<JobKey, JobInstance>, keys: set<JobKey>): map<JobKey, Row> {
    rows + map k | k in keys && k in jobs :: RowOf(jobs[k])
  }

  function WrittenAll(c: Ctl, keys: set<JobKey>): Ctl {
    c.(rows := RowsWritten(c.rows, c.jobs, keys), toWrite := c.toWrite - keys, released := c.released - keys)
  }

  /** The rows that a flush leaves. */
  lemma FlushSays(rows: map<JobKey, Row>, jobs: map<JobKey, JobInstance>, keys: set<JobKey>)
    ensures RowsWritten(rows, jobs, keys) ==
            map k | k in rows.Keys + keys * jobs.Keys ::
              if k in keys && k in jobs
              then Row(jobs[k].state, if jobs[k].executions == [] then None else Some(jobs[k].executions[0]))
              else rows[k]
  {
  }

  lemma WrittenNothing(c: Ctl)
    ensures WrittenAll(c, {}) == c
  {
    assert RowsWritten(c.rows, c.jobs, {}) == c.rows && c.toWrite - {} == c.toWrite && c.released - {} == c.released;
  }

  lemma RowsWrittenOneMore(rows: map<JobKey, Row>, jobs: map<JobKey, JobInstance>, keys: set<JobKey>, k: JobKey)
    requires k in keys
    ensures RowsWritten(rows, jobs, keys) ==
            if k in jobs then RowsWritten(rows, jobs, keys - {k})[k := RowOf(jobs[k])] else RowsWritten(rows, jobs,
                keys - {k})
  {
  }

  lemma WrittenOneMore(c: Ctl, keys: set<JobKey>, k: JobKey)
    requires k in keys
    ensures Written(WrittenAll(c, keys - {k}), k) == WrittenAll(c, keys)
  {
    RowsWrittenOneMore(c.rows, c.jobs, keys, k);
    assert c.toWrite - (keys - {k}) - {k} == c.toWrite - keys;
    assert c.released - (keys - {k}) - {k} == c.released - keys;
  }

  lemma {:induction false} WritingAllIsSteps(c: Ctl, keys: set<JobKey>)
    requires keys <= c.toWrite
    ensures Leads(c, WrittenAll(c, keys))
    decreases |keys|
  {
    if keys == {} {
      WrittenNothing(c);
      LeadsNowhere(c);
    } else {
      var k :| k in keys;
      WritingAllIsSteps(c, keys - {k});
      WrittenOneMore(c, keys, k);
      OneMoreFlush(c, WrittenAll(c, keys - {k}), k);
    }
  }

  lemma OneMoreFlush(c: Ctl, d: Ctl, k: JobKey)
    requires Leads(c, d) && k in d.toWrite
    ensures Leads(c, Written(d, k))
  {
    LeadsOn(c, d, Flush(k), Written(d, k));
  }

  // Reserving

  predicate Waits(c: Ctl, k: JobKey) {
    k in c.jobs && c.jobs[k].state.Queued? && k !in c.tasks
  }

  /** One queued job tried. */
  function TryReserved(c: Ctl, online: seq<bool>, k: JobKey): Ctl
    requires AllShaped(c.pools) && |online| == |c.pools|
  {
    if !Waits(c, k) then c
    else match PlaceMember(c.pools, Usable(online, c.jobs[k]), c.jobs[k].spec.resources)
         case None => c
         case Some(placed) => ReservedFor(c, k, placed)
  }

  function ReservedAll(c: Ctl, online: seq<bool>, order: seq<JobKey>): (d: Ctl)
    requires AllShaped(c.pools) && |online| == |c.pools|
    ensures AllShaped(d.pools) && |d.pools| == |c.pools|
  {
    if order == [] then c else TryReserved(ReservedAll(c, online, order[..|order| - 1]), online, order[|order| - 1])
  }

  ghost predicate ReadyToReserve(c: Ctl) {
    c.phase.Reserving? && Flushed(c) && AllShaped(c.pools)
  }

  lemma TryIsStep(c: Ctl, online: seq<bool>, k: JobKey)
    requires ReadyToReserve(c) && |online| == |c.pools|
    ensures TryReserved(c, online, k) == c || exists step: Step ::
        !step.Restart? && Next(c, step, TryReserved(c, online, k))
    ensures ReadyToReserve(TryReserved(c, online, k))
  {
    if Waits(c, k) {
      var usable, resources := Usable(online, c.jobs[k]), c.jobs[k].spec.resources;
      PlaceSingle(c.pools, usable, resources);
      if PlaceMember(c.pools, usable, resources).Some? {
        var placed := PlaceMember(c.pools, usable, resources).value;
        assert CanReserve(c, k, online, placed);
        assert Next(c, Admit(ReserveJob(k, online, placed)), TryReserved(c, online, k));
      }
    }
  }

  lemma {:induction false} ReservingIsSteps(c: Ctl, online: seq<bool>, order: seq<JobKey>)
    requires ReadyToReserve(c) && |online| == |c.pools|
    ensures Leads(c, ReservedAll(c, online, order)) && ReadyToReserve(ReservedAll(c, online, order))
    decreases |order|
  {
    if order == [] {
      LeadsNowhere(c);
    } else {
      var n := |order| - 1;
      var before := ReservedAll(c, online, order[..n]);
      ReservingIsSteps(c, online, order[..n]);
      TryIsStep(before, online, order[n]);
      var after := TryReserved(before, online, order[n]);
      if after != before {
        var step: Step :| !step.Restart? && Next(before, step, after);
        LeadsOn(c, before, step, after);
      }
    }
  }

  /** A pool that gave something out fits no more than before. */
  lemma BookedFitsLess(p: PoolState, alloc: Allocation, spec: ResourceSpec)
    requires WellFormed(p) && WellFormed(Booked(p, alloc)) && Reserve(Booked(p, alloc), spec).Some?
    ensures Reserve(p, spec).Some?
  {
    var q := Booked(p, alloc);
    ReserveIffEnough(p, spec);
    ReserveIffEnough(q, spec);
    assert Available(q, Cpu) <= Available(p, Cpu) && Available(q, Memory) <= Available(p, Memory);
    forall i | i in FittingCards(q, spec) ensures i in FittingCards(p, spec) {
      assert Available(q, Card(i)) <= Available(p, Card(i)) <= Capacity(p.total, Card(i));
    }
    SubsetSize(FittingCards(q, spec), FittingCards(p, spec));
  }

  /** The job fits nowhere it may go. */
  ghost predicate FitsNowhere(pools: seq<PoolState>, online: seq<bool>, job: JobInstance)
    requires AllShaped(pools) && |online| == |pools|
  {
    PlaceMember(pools, Usable(online, job), job.spec.resources).None?
  }

  lemma StillFitsNowhere(pools: seq<PoolState>, online: seq<bool>, job: JobInstance, placed: Placed)
    requires AllWellFormed(pools) && AllShaped(pools) && |online| == |pools| && AllWellFormed(Taken(pools, placed))
    requires FitsNowhere(pools, online, job)
    ensures FitsNowhere(Taken(pools, placed), online, job)
  {
    var now, usable, spec := Taken(pools, placed), Usable(online, job), job.spec.resources;
    PlaceMemberMeets(pools, usable, spec);
    PlaceMemberMeets(now, usable, spec);
    forall option, n: nat | option in GpuOptions(spec) ensures !FitsOn(now, usable, option, n) {
      assert !FitsOn(pools, usable, option, n);
      if n == placed.node && n < |pools| && Reserve(now[n], option).Some? {
        BookedFitsLess(pools[n], placed.allocation, option);
      }
    }
  }

  /** A job tried and left waiting fits nowhere, and goes on fitting nowhere as others are placed. */
  lemma {:induction false} NoneLeftThatFits(c: Ctl, online: seq<bool>, order: seq<JobKey>, k: JobKey)
    requires AllShaped(c.pools) && AllWellFormed(c.pools) && |online| == |c.pools|
    ensures AllWellFormed(ReservedAll(c, online, order).pools) && ReservedAll(c, online, order).jobs == c.jobs
    ensures k in order && Waits(ReservedAll(c, online, order), k) ==>
              FitsNowhere(ReservedAll(c, online, order).pools, online, c.jobs[k])
    decreases |order|
  {
    if order != [] {
      var n := |order| - 1;
      var before, j := ReservedAll(c, online, order[..n]), order[n];
      NoneLeftThatFits(c, online, order[..n], k);
      assert k in order ==> k in order[..n] || k == j;
      if Waits(before, j) {
        var usable, resources := Usable(online, before.jobs[j]), before.jobs[j].spec.resources;
        if PlaceMember(before.pools, usable, resources).Some? {
          var placed := PlaceMember(before.pools, usable, resources).value;
          PlaceMemberTakes(before.pools, usable, resources, placed);
          if k in order[..n] && Waits(before, k) {
            StillFitsNowhere(before.pools, online, c.jobs[k], placed);
          }
        }
      }
    }
  }

  /** Of a queued job still without a reservation: no online node that has not turned it down can reserve any of its
      options. */
  lemma LeftOutFitsNowhere(c: Ctl, online: seq<bool>, order: seq<JobKey>, k: JobKey)
    requires AllShaped(c.pools) && AllWellFormed(c.pools) && |online| == |c.pools|
    requires k in order && k in c.jobs && c.jobs[k].state.Queued? && k !in ReservedAll(c, online, order).tasks
    ensures forall n, option | && 0 <= n < |c.pools| && online[n] && n !in c.jobs[k].rejected
                               && option in GpuOptions(c.jobs[k].spec.resources) ::
              Reserve(ReservedAll(c, online, order).pools[n], option).None?
  {
    NoneLeftThatFits(c, online, order, k);
    PlacesIff(ReservedAll(c, online, order).pools, Usable(online, c.jobs[k]), c.jobs[k].spec.resources);
  }

  /** Reservations made before stay, and new ones are of queued jobs, on online nodes that have not turned them down. */
  lemma {:induction false} NewReservations(c: Ctl, online: seq<bool>, order: seq<JobKey>, k: JobKey)
    requires AllShaped(c.pools) && |online| == |c.pools|
    ensures var d := ReservedAll(c, online, order);
            && (k in c.tasks ==> k in d.tasks && d.tasks[k] == c.tasks[k])
            && (k in d.tasks && k !in c.tasks ==>
                  && k in c.jobs && c.jobs[k].state.Queued? && d.tasks[k].result.None?
                  && d.tasks[k].placed.node < |online| && online[d.tasks[k].placed.node]
                  && d.tasks[k].placed.node !in c.jobs[k].rejected)
            && d.jobs == c.jobs
    decreases |order|
  {
    if order != [] {
      var n := |order| - 1;
      NewReservations(c, online, order[..n], k);
      var before, j := ReservedAll(c, online, order[..n]), order[n];
      if Waits(before, j) && j == k {
        PlacesIff(before.pools, Usable(online, before.jobs[j]), before.jobs[j].spec.resources);
      }
    }
  }

  lemma {:induction false} ReservationsStay(c: Ctl, online: seq<bool>, order: seq<JobKey>)
    requires AllShaped(c.pools) && |online| == |c.pools|
    ensures c.tasks.Keys <= ReservedAll(c, online, order).tasks.Keys
    ensures ReservedAll(c, online, order).tasks == c.tasks ==> ReservedAll(c, online, order) == c
    decreases |order|
  {
    if order != [] {
      var n := |order| - 1;
      ReservationsStay(c, online, order[..n]);
      var before, k := ReservedAll(c, online, order[..n]), order[n];
      if Waits(before, k) && TryReserved(before, online, k) != before {
        assert k in TryReserved(before, online, k).tasks && k !in c.tasks;
      }
    }
  }

  lemma {:induction false} ReservedAreFresh(c: Ctl, online: seq<bool>, order: seq<JobKey>)
    requires AllShaped(c.pools) && |online| == |c.pools| && c.tasks == map[]
    ensures forall k | k in ReservedAll(c, online, order).tasks :: ReservedAll(c, online, order).tasks[k].result.None?
    decreases |order|
  {
    if order != [] {
      ReservedAreFresh(c, online, order[..|order| - 1]);
    }
  }

  /** With every node online, idle and unblocked, and some job queued, the reserving loop places at least one job. */
  lemma IdleNodesPlaceSome(c: Ctl, k: JobKey, order: seq<JobKey>)
    requires GoodPools(c.pools) && Hopeful(c) && k in c.jobs && c.jobs[k].state.Queued? && c.tasks == map[] && k in order
    requires forall n: nat, res | n < |c.pools| :: Available(c.pools[n], res) == Capacity(c.pools[n].total, res)
    requires forall n, i | 0 <= n < |c.pools| && 0 <= i < |c.pools[n].blocked| :: !c.pools[n].blocked[i]
    ensures ReservedAll(c, seq(|c.pools|, n => true), order).tasks != map[]
  {
    var online := seq(|c.pools|, n => true);
    var placed := IdleNodesTakeAny(c, k);
    PlaceSingle(c.pools, Usable(online, c.jobs[k]), c.jobs[k].spec.resources);
    NoneLeftThatFits(c, online, order, k);
    ReservationsStay(c, online, order);
  }

  // Applying launches, polls and qualifications

  function LaunchesApplied(c: Ctl, order: seq<JobKey>): Ctl {
    if order == [] then c
    else
      var before := LaunchesApplied(c, order[..|order| - 1]);
      if order[|order| - 1] in before.tasks then LaunchApplied(before, order[|order| - 1]) else before
  }

  function PollsApplied(c: Ctl, order: seq<JobKey>): Ctl {
    if order == [] then c
    else
      var before := PollsApplied(c, order[..|order| - 1]);
      if order[|order| - 1] in before.polls then PollApplied(before, order[|order| - 1]) else before
  }

  function AllQualified(c: Ctl, order: seq<nat>): Ctl {
    if order == [] then c
    else
      var before := AllQualified(c, order[..|order| - 1]);
      if order[|order| - 1] in before.qualifying then Qualified(before, order[|order| - 1]) else before
  }

  ghost predicate ReadyToApply(c: Ctl) {
    c.phase.ApplyingLaunches? && AllLaunched(c)
  }

  lemma AppliedStaysReady(c: Ctl, k: JobKey)
    requires ReadyToApply(c) && k in c.tasks
    ensures ReadyToApply(LaunchApplied(c, k)) && LaunchApplied(c, k).tasks == c.tasks - {k}
  {
  }

  lemma {:induction false} ApplyingIsSteps(c: Ctl, order: seq<JobKey>)
    requires ReadyToApply(c)
    ensures Leads(c, LaunchesApplied(c, order)) && ReadyToApply(LaunchesApplied(c, order))
    decreases |order|
  {
    if order == [] {
      LeadsNowhere(c);
    } else {
      var n := |order| - 1;
      var before := LaunchesApplied(c, order[..n]);
      ApplyingIsSteps(c, order[..n]);
      if order[n] in before.tasks {
        AppliedStaysReady(before, order[n]);
        LeadsOn(c, before, Admit(ApplyLaunch(order[n])), LaunchesApplied(c, order));
      }
    }
  }

  lemma {:induction false} ApplyingKeepsBooks(c: Ctl, order: seq<JobKey>)
    requires LedgerInv(c) && ReadyToApply(c)
    ensures LedgerInv(LaunchesApplied(c, order)) && ReadyToApply(LaunchesApplied(c, order))
    decreases |order|
  {
    if order != [] {
      var n := |order| - 1;
      var before := LaunchesApplied(c, order[..n]);
      ApplyingKeepsBooks(c, order[..n]);
      if order[n] in before.tasks {
        AppliedStaysReady(before, order[n]);
        LaunchAppliedKept(before, order[n]);
      }
    }
  }

  ghost predicate ReadyToApplyPolls(c: Ctl) {
    c.phase.ApplyingPolls? && AllPolled(c)
  }

  lemma {:induction false} ApplyingPollsIsSteps(c: Ctl, order: seq<JobKey>)
    requires ReadyToApplyPolls(c)
    ensures Leads(c, PollsApplied(c, order)) && ReadyToApplyPolls(PollsApplied(c, order))
    decreases |order|
  {
    if order == [] {
      LeadsNowhere(c);
    } else {
      var n := |order| - 1;
      var before := PollsApplied(c, order[..n]);
      ApplyingPollsIsSteps(c, order[..n]);
      if order[n] in before.polls {
        LeadsOn(c, before, Poll(ApplyPoll(order[n])), PollsApplied(c, order));
      }
    }
  }

  lemma {:induction false} ApplyingPollsKeepsBooks(c: Ctl, order: seq<JobKey>)
    requires LedgerInv(c) && ReadyToApplyPolls(c)
    ensures LedgerInv(PollsApplied(c, order)) && ReadyToApplyPolls(PollsApplied(c, order))
    decreases |order|
  {
    if order != [] {
      var n := |order| - 1;
      var before := PollsApplied(c, order[..n]);
      ApplyingPollsKeepsBooks(c, order[..n]);
      if order[n] in before.polls {
        PollAppliedKept(before, order[n]);
      }
    }
  }

  lemma {:induction false} QualificationsLeft(c: Ctl, order: seq<nat>)
    ensures AllQualified(c, order).qualifying == map id | id in c.qualifying && id !in order :: c.qualifying[id]
    decreases |order|
  {
    if order != [] {
      var n := |order| - 1;
      QualificationsLeft(c, order[..n]);
      assert forall id :: id in order <==> id in order[..n] || id == order[n];
    }
  }

  lemma {:induction false} QualifyingKeepsBooks(c: Ctl, order: seq<nat>)
    requires LedgerInv(c) && c.phase.Checking?
    ensures LedgerInv(AllQualified(c, order)) && AllQualified(c, order).phase.Checking?
    decreases |order|
  {
    if order != [] {
      var n := |order| - 1;
      var before := AllQualified(c, order[..n]);
      QualifyingKeepsBooks(c, order[..n]);
      if order[n] in before.qualifying {
        CardsKept(before, EndQualification(order[n]), AllQualified(c, order));
      }
    }
  }

  lemma {:induction false} QualifyingIsSteps(c: Ctl, order: seq<nat>)
    requires c.phase.Checking?
    ensures Leads(c, AllQualified(c, order)) && AllQualified(c, order).phase.Checking?
    decreases |order|
  {
    if order == [] {
      LeadsNowhere(c);
    } else {
      var n := |order| - 1;
      var before := AllQualified(c, order[..n]);
      QualifyingIsSteps(c, order[..n]);
      if order[n] in before.qualifying {
        LeadsOn(c, before, Cards(EndQualification(order[n])), AllQualified(c, order));
      }
    }
  }

  // A whole tick, nothing coming in between

  /** Every reserved job sent to its node, which gave this answer. */
  function LaunchesAnswered(c: Ctl, answer: JobKey -> LaunchResult): Ctl {
    c.(tasks := map k | k in c.tasks :: c.tasks[k].(result := Some(answer(k))), phase := ApplyingLaunches)
  }

  /** Every job of the snapshot polled, with this reply. */
  function PollsAnswered(c: Ctl, answer: JobKey -> PollReply): Ctl {
    c.(polls := map k | k in c.polls :: c.polls[k].(reply := Some(answer(k))), phase := ApplyingPolls)
  }

  function SomeAnswered(c: Ctl, answer: JobKey -> LaunchResult, keys: set<JobKey>): Ctl {
    c.(tasks := map k | k in c.tasks :: if k in keys then c.tasks[k].(result := Some(answer(k))) else c.tasks[k])
  }

  lemma {:induction false} AnsweringIsSteps(c: Ctl, answer: JobKey -> LaunchResult, keys: set<JobKey>)
    requires c.phase.Launching? && (forall k | k in c.tasks :: c.tasks[k].result.None?) && keys <= c.tasks.Keys
    ensures Leads(c, SomeAnswered(c, answer, keys))
    decreases |keys|
  {
    if keys == {} {
      LeadsNowhere(c);
      assert SomeAnswered(c, answer, keys) == c;
    } else {
      var k :| k in keys;
      AnsweringIsSteps(c, answer, keys - {k});
      AnswerOneMore(c, answer, keys, k);
    }
  }

  lemma AnswerOneMore(c: Ctl, answer: JobKey -> LaunchResult, keys: set<JobKey>, k: JobKey)
    requires c.phase.Launching? && k in keys && k in c.tasks && c.tasks[k].result.None?
    requires Leads(c, SomeAnswered(c, answer, keys - {k}))
    ensures Leads(c, SomeAnswered(c, answer, keys))
  {
    var before := SomeAnswered(c, answer, keys - {k});
    assert WithResult(before, k, answer(k)) == SomeAnswered(c, answer, keys);
    LeadsOn(c, before, Admit(LaunchDone(k, answer(k))), SomeAnswered(c, answer, keys));
  }

  lemma LaunchingIsSteps(c: Ctl, answer: JobKey -> LaunchResult)
    requires c.phase.Reserving? && Flushed(c) && forall k | k in c.tasks :: c.tasks[k].result.None?
    ensures Leads(c, LaunchesAnswered(c, answer)) && ReadyToApply(LaunchesAnswered(c, answer))
  {
    var launching := c.(phase := Launching);
    LeadsNowhere(c);
    LeadsOn(c, c, Admit(StartLaunching), launching);
    AnsweringIsSteps(launching, answer, c.tasks.Keys);
    var answered := SomeAnswered(launching, answer, c.tasks.Keys);
    LeadsAcross(c, launching, answered);
    assert answered.tasks == LaunchesAnswered(c, answer).tasks;
    LeadsOn(c, answered, Admit(StartApplying), LaunchesAnswered(c, answer));
  }

  function SomePolled(c: Ctl, answer: JobKey -> PollReply, keys: set<JobKey>): Ctl {
    c.(polls := map k | k in c.polls :: if k in keys then c.polls[k].(reply := Some(answer(k))) else c.polls[k])
  }

  lemma {:induction false} PollingSomeIsSteps(c: Ctl, answer: JobKey -> PollReply, keys: set<JobKey>)
    requires c.phase.Polling? && (forall k | k in c.polls :: c.polls[k].reply.None?) && keys <= c.polls.Keys
    ensures Leads(c, SomePolled(c, answer, keys))
    decreases |keys|
  {
    if keys == {} {
      LeadsNowhere(c);
      assert SomePolled(c, answer, keys) == c;
    } else {
      var k :| k in keys;
      PollingSomeIsSteps(c, answer, keys - {k});
      PollOneMore(c, answer, keys, k);
    }
  }

  lemma PollOneMore(c: Ctl, answer: JobKey -> PollReply, keys: set<JobKey>, k: JobKey)
    requires c.phase.Polling? && k in keys && k in c.polls && c.polls[k].reply.None?
    requires Leads(c, SomePolled(c, answer, keys - {k}))
    ensures Leads(c, SomePolled(c, answer, keys))
  {
    var before, after := SomePolled(c, answer, keys - {k}), SomePolled(c, answer, keys);
    assert after.polls == before.polls[k := before.polls[k].(reply := Some(answer(k)))];
    LeadsOn(c, before, Poll(PollDone(k, answer(k))), after);
  }

  lemma PollingIsSteps(c: Ctl, answer: JobKey -> PollReply)
    requires c.phase.Polling? && forall k | k in c.polls :: c.polls[k].reply.None?
    ensures Leads(c, PollsAnswered(c, answer)) && ReadyToApplyPolls(PollsAnswered(c, answer))
  {
    var answered := SomePolled(c, answer, c.polls.Keys);
    PollingSomeIsSteps(c, answer, c.polls.Keys);
    assert answered.polls == PollsAnswered(c, answer).polls;
    LeadsOn(c, answered, Poll(StartApplyingPolls), PollsAnswered(c, answer));
  }

  function FlushedAll(c: Ctl): Ctl {
    WrittenAll(c, c.toWrite)
  }

  lemma FlushingLeadsOn(c: Ctl, d: Ctl)
    requires Leads(c, d)
    ensures Leads(c, FlushedAll(d))
  {
    WritingAllIsSteps(d, d.toWrite);
    LeadsAcross(c, d, FlushedAll(d));
  }

  /** Pending jobs queued and skipped. */
  function TickAdvanced(c: Ctl): Ctl {
    FlushedAll(Cascaded(FlushedAll(Advanced(c))))
  }

  lemma AdvancingIsSteps(c: Ctl)
    requires c.phase.Checking? && Flushed(c)
    ensures Leads(c, TickAdvanced(c)) && TickAdvanced(c).phase.Reserving? && Flushed(TickAdvanced(c))
  {
    var advanced := FlushedAll(Advanced(c));
    LeadsNowhere(c);
    LeadsOn(c, c, Admit(AdvancePending), Advanced(c));
    FlushingLeadsOn(c, Advanced(c));
    LeadsOn(c, advanced, Admit(CascadeSkipped), Cascaded(advanced));
    FlushingLeadsOn(c, Cascaded(advanced));
  }

  /** Queued jobs reserved for in one order, launched, and what came of it applied in another. */
  function TickAdmitted(c: Ctl, online: seq<bool>, launched: JobKey -> LaunchResult, tried: seq<JobKey>,
                        applied: seq<JobKey>): Ctl
    requires AllShaped(c.pools) && |online| == |c.pools|
  {
    FlushedAll(LaunchesApplied(LaunchesAnswered(ReservedAll(c, online, tried), launched), applied).(phase := Snapshotting))
  }

  lemma LaunchedLeads(c: Ctl, online: seq<bool>, launched: JobKey -> LaunchResult, tried: seq<JobKey>)
    requires ReadyToReserve(c) && |online| == |c.pools| && c.tasks == map[]
    ensures var answered := LaunchesAnswered(ReservedAll(c, online, tried), launched);
            Leads(c, answered) && ReadyToApply(answered)
  {
    var reserved := ReservedAll(c, online, tried);
    ReservingIsSteps(c, online, tried);
    ReservedAreFresh(c, online, tried);
    LaunchingIsSteps(reserved, launched);
    LeadsAcross(c, reserved, LaunchesAnswered(reserved, launched));
  }

  lemma AdmittingIsSteps(c: Ctl, online: seq<bool>, launched: JobKey -> LaunchResult, tried: seq<JobKey>,
                         applied: seq<JobKey>)
    requires ReadyToReserve(c) && |online| == |c.pools| && c.tasks == map[]
    requires LaunchesApplied(LaunchesAnswered(ReservedAll(c, online, tried), launched), applied).tasks == map[]
    ensures Leads(c, TickAdmitted(c, online, launched, tried, applied))
  {
    var answered := LaunchesAnswered(ReservedAll(c, online, tried), launched);
    LaunchedLeads(c, online, launched, tried);
    ApplyingIsSteps(answered, applied);
    var settled := LaunchesApplied(answered, applied);
    LeadsAcross(c, answered, settled);
    LeadsOn(c, settled, Admit(EndApplying), settled.(phase := Snapshotting));
    FlushingLeadsOn(c, settled.(phase := Snapshotting));
  }

  function Snapped(c: Ctl): Ctl {
    c.(polls := Snapshots(c.jobs), phase := Polling)
  }

  /** Running jobs polled, and what came of it applied in some order. */
  function TickPolled(c: Ctl, polled: JobKey -> PollReply, applied: seq<JobKey>): Ctl {
    FlushedAll(PollsApplied(PollsAnswered(Snapped(c), polled), applied).(phase := Checking))
  }

  lemma PolledLeads(c: Ctl, polled: JobKey -> PollReply)
    requires c.phase.Snapshotting? && Flushed(c)
    ensures Leads(c, PollsAnswered(Snapped(c), polled)) && ReadyToApplyPolls(PollsAnswered(Snapped(c), polled))
  {
    LeadsNowhere(c);
    LeadsOn(c, c, Poll(Snapshot), Snapped(c));
    PollingIsSteps(Snapped(c), polled);
    LeadsAcross(c, Snapped(c), PollsAnswered(Snapped(c), polled));
  }

  lemma RunningIsSteps(c: Ctl, polled: JobKey -> PollReply, applied: seq<JobKey>)
    requires c.phase.Snapshotting? && Flushed(c)
    requires PollsApplied(PollsAnswered(Snapped(c), polled), applied).polls == map[]
    ensures Leads(c, TickPolled(c, polled, applied))
  {
    var answered := PollsAnswered(Snapped(c), polled);
    PolledLeads(c, polled);
    ApplyingPollsIsSteps(answered, applied);
    var settled := PollsApplied(answered, applied);
    LeadsAcross(c, answered, settled);
    LeadsOn(c, settled, Poll(EndPolls), settled.(phase := Checking));
    FlushingLeadsOn(c, settled.(phase := Checking));
  }
}

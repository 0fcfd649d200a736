/** Resource conservation: what is free and what is held add up to each node's totals in every reachable state. */
module Ledger {
  import opened Wrappers
  import opened Spec
  import opened Pool
  import opened Placement
  import opened Model
  import opened Controller
  import opened Sums

  /** Who can hold resources: a job, from its reservation until its release, or a qualification. */
  datatype Holder = JobHolder(key: JobKey) | Qualification(id: nat)

  function ClaimOf(c: Ctl, h: Holder): Option<Placed> {
    match h
    case Qualification(id) => if id in c.qualifying then Some(c.qualifying[id]) else None
    case JobHolder(k) =>
      if k in c.tasks then Some(c.tasks[k].placed)
      else if k in c.jobs && c.jobs[k].executions != [] then Some(c.jobs[k].executions[0])
      else None
  }

  function Holders(c: Ctl): set<Holder> {
    (set k | k in c.jobs.Keys + c.tasks.Keys :: JobHolder(k)) + (set id | id in c.qualifying :: Qualification(id))
  }

  function LoadOf(claim: Option<Placed>, node: nat, res: Resource): nat {
    if claim.Some? && claim.value.node == node then Amount(claim.value.allocation, res) else 0
  }

  function Load(c: Ctl, node: nat, res: Resource): Holder -> nat {
    h => LoadOf(ClaimOf(c, h), node, res)
  }

  ghost function Held(c: Ctl, node: nat, res: Resource): nat {
    Sum(Holders(c), Load(c, node, res))
  }

  ghost predicate BalancedAt(c: Ctl, node: nat, res: Resource)
    requires node < |c.pools|
  {
    Available(c.pools[node], res) + Held(c, node, res) == Capacity(c.pools[node].total, res)
  }

  /** Free plus held is the total, for CPU, memory and each card of each node. */
  ghost predicate Balanced(c: Ctl) {
    forall node: nat, res | node < |c.pools| :: BalancedAt(c, node, res)
  }

  ghost predicate GoodClaim(pools: seq<PoolState>, p: Placed) {
    p.node < |pools| && WholeCards(pools[p.node].total, p.allocation.gpus)
  }

  ghost predicate GoodClaims(c: Ctl) {
    forall h | ClaimOf(c, h).Some? :: GoodClaim(c.pools, ClaimOf(c, h).value)
  }

  ghost predicate GoodPools(pools: seq<PoolState>) {
    AllShaped(pools) && AllWellFormed(pools)
  }

  /** Executions exactly while running, and tasks and poll entries only for jobs in the matching state. */
  ghost predicate Shapes(c: Ctl) {
    && (forall k | k in c.jobs ::
          && |c.jobs[k].executions| == (if c.jobs[k].state.Running? then 1 else 0)
          && !c.jobs[k].state.TimedOut?)
    && (forall k | k in c.tasks :: k in c.jobs && c.jobs[k].state.Queued?)
    && (forall k | k in c.polls :: k in c.jobs && c.jobs[k].state.Running?)
    && (forall k | k in c.jobs :: k.run in c.specs && k.run !in c.submitting)
  }

  /** Which phases can have work in flight. */
  ghost predicate Phases(c: Ctl) {
    && (c.tasks != map[] ==> c.phase.Reserving? || c.phase.Launching? || c.phase.ApplyingLaunches?)
    && (c.polls != map[] ==> c.phase.Polling? || c.phase.ApplyingPolls?)
    && (c.released != map[] ==> c.phase.ApplyingPolls? || c.phase.Checking?)
    && c.released.Keys <= c.toWrite
    && (forall k | k in c.toWrite :: k in c.jobs)
  }

  ghost predicate LedgerInv(c: Ctl) {
    GoodPools(c.pools) && Shapes(c) && Phases(c) && GoodClaims(c) && Balanced(c)
  }

  // What a change of one claim does to the sums

  ghost predicate SameClaims(c: Ctl, d: Ctl) {
    forall h :: ClaimOf(d, h) == ClaimOf(c, h)
  }

  ghost predicate OneClaimChanged(c: Ctl, d: Ctl, x: Holder) {
    forall h | h != x :: ClaimOf(d, h) == ClaimOf(c, h)
  }

  lemma ClaimersAreHolders(c: Ctl, h: Holder)
    ensures ClaimOf(c, h).Some? ==> h in Holders(c)
  {
  }

  lemma HeldAfterOneChange(c: Ctl, d: Ctl, x: Holder, node: nat, res: Resource)
    requires OneClaimChanged(c, d, x)
    ensures Held(d, node, res) + LoadOf(ClaimOf(c, x), node, res) == Held(c, node, res) + LoadOf(ClaimOf(d, x), node, res)
  {
    var all := Holders(c) + Holders(d) + {x};
    forall h ensures (ClaimOf(c, h).Some? ==> h in Holders(c)) && (ClaimOf(d, h).Some? ==> h in Holders(d)) {
      ClaimersAreHolders(c, h);
      ClaimersAreHolders(d, h);
    }
    SumExtend(Holders(c), all, Load(c, node, res));
    SumExtend(Holders(d), all, Load(d, node, res));
    SumChange(all, Load(c, node, res), Load(d, node, res), x);
  }

  /** Pools that differ at most in which cards are blocked. */
  ghost predicate SameButBlocked(pools: seq<PoolState>, now: seq<PoolState>) {
    && |now| == |pools|
    && forall n | 0 <= n < |pools| ::
        now[n].(blocked := pools[n].blocked) == pools[n] && |now[n].blocked| == |pools[n].blocked|
  }

  lemma KeptWhenSame(c: Ctl, d: Ctl)
    requires GoodPools(c.pools) && GoodClaims(c) && Balanced(c)
    requires SameClaims(c, d) && SameButBlocked(c.pools, d.pools)
    ensures GoodPools(d.pools) && GoodClaims(d) && Balanced(d)
  {
    forall n | 0 <= n < |d.pools| ensures Shaped(d.pools[n]) && WellFormed(d.pools[n]) {
      assert WellFormed(c.pools[n]);
      forall res ensures Available(d.pools[n], res) <= Capacity(d.pools[n].total, res) {
        assert Available(c.pools[n], res) <= Capacity(c.pools[n].total, res);
      }
    }
    forall node: nat, res | node < |d.pools| ensures BalancedAt(d, node, res) {
      assert BalancedAt(c, node, res);
      HeldAfterOneChange(c, d, Qualification(0), node, res);
    }
  }

  lemma KeptWhenTaken(c: Ctl, d: Ctl, x: Holder, placed: Placed)
    requires GoodPools(c.pools) && GoodClaims(c) && Balanced(c)
    requires OneClaimChanged(c, d, x) && ClaimOf(c, x).None? && ClaimOf(d, x) == Some(placed)
    requires GoodClaim(c.pools, placed) && Holds(c.pools[placed.node], placed.allocation)
    requires d.pools == Taken(c.pools, placed)
    ensures GoodPools(d.pools) && GoodClaims(d) && Balanced(d)
  {
    StaysWellFormed(c.pools[placed.node], d.pools[placed.node]);
    forall h | ClaimOf(d, h).Some? ensures GoodClaim(d.pools, ClaimOf(d, h).value) {
      if h != x {
        assert GoodClaim(c.pools, ClaimOf(c, h).value);
      }
    }
    forall node: nat, res | node < |d.pools| ensures BalancedAt(d, node, res) {
      assert BalancedAt(c, node, res);
      HeldAfterOneChange(c, d, x, node, res);
      assert node == placed.node ==> Amount(placed.allocation, res) <= Available(c.pools[node], res);
    }
  }

  lemma CardsBeyondAreNotHeld(total: SystemResources, gpus: seq<GpuAllocation>, res: Resource)
    requires WholeCards(total, gpus)
    requires res.Card? && res.index >= |total.gpus|
    ensures CardVram(gpus, res.index) == 0
  {
    CardVramOfWhole(total, gpus, res.index);
  }

  lemma KeptWhenReleased(c: Ctl, d: Ctl, x: Holder, placed: Placed)
    requires GoodPools(c.pools) && GoodClaims(c) && Balanced(c)
    requires OneClaimChanged(c, d, x) && ClaimOf(c, x) == Some(placed) && ClaimOf(d, x).None?
    requires d.pools == ReleasedAt(c.pools, placed)
    ensures GoodPools(d.pools) && GoodClaims(d) && Balanced(d)
  {
    assert GoodClaim(c.pools, placed);
    forall h | ClaimOf(d, h).Some? ensures GoodClaim(d.pools, ClaimOf(d, h).value) {
      assert GoodClaim(c.pools, ClaimOf(c, h).value);
    }
    forall node: nat, res | node < |d.pools| ensures BalancedAt(d, node, res) {
      assert BalancedAt(c, node, res);
      HeldAfterOneChange(c, d, x, node, res);
      if node == placed.node && res.Card? && res.index >= |c.pools[node].total.gpus| {
        CardsBeyondAreNotHeld(c.pools[node].total, placed.allocation.gpus, res);
      }
    }
    forall res ensures Available(d.pools[placed.node], res) <= Capacity(d.pools[placed.node].total, res) {
      assert BalancedAt(d, placed.node, res);
    }
  }

  /** A release never overflows: what it returns fits under the totals. */
  lemma ReleaseFits(c: Ctl, x: Holder, placed: Placed, res: Resource)
    requires GoodPools(c.pools) && GoodClaims(c) && Balanced(c) && ClaimOf(c, x) == Some(placed)
    ensures placed.node < |c.pools|
    ensures Available(c.pools[placed.node], res) + Amount(placed.allocation,
        res) <= Capacity(c.pools[placed.node].total, res)
  {
    assert GoodClaim(c.pools, placed);
    assert BalancedAt(c, placed.node, res);
    ClaimersAreHolders(c, x);
    SumOfOne(Holders(c), Load(c, placed.node, res), x);
  }

  // Exclusive cards

  ghost predicate HoldsCard(c: Ctl, h: Holder, node: nat, card: nat) {
    ClaimOf(c, h).Some? && ClaimOf(c, h).value.node == node && card in Indices(ClaimOf(c, h).value.allocation.gpus)
  }

  lemma HoldingACard(c: Ctl, h: Holder, node: nat, card: nat)
    requires LedgerInv(c) && node < |c.pools|
    ensures HoldsCard(c, h, node, card) ==>
              card < |c.pools[node].total.gpus|
                  && Load(c, node, Card(card))(h) == Capacity(c.pools[node].total, Card(card)) > 0
    ensures !HoldsCard(c, h, node, card) ==> Load(c, node, Card(card))(h) == 0
  {
    if ClaimOf(c, h).Some? && ClaimOf(c, h).value.node == node {
      assert GoodClaim(c.pools, ClaimOf(c, h).value);
      var gpus := ClaimOf(c, h).value.allocation.gpus;
      CardVramOfWhole(c.pools[node].total, gpus, card);
      assert card in Indices(gpus) <==> exists i :: 0 <= i < |gpus| && gpus[i].index == card;
    }
  }

  /** No card is held twice. */
  lemma CardsAreExclusive(c: Ctl, g: Holder, h: Holder, node: nat, card: nat)
    requires LedgerInv(c) && node < |c.pools|
    requires HoldsCard(c, g, node, card) && HoldsCard(c, h, node, card)
    ensures g == h
  {
    HoldingACard(c, g, node, card);
    HoldingACard(c, h, node, card);
    ClaimersAreHolders(c, g);
    ClaimersAreHolders(c, h);
    assert BalancedAt(c, node, Card(card));
    if g != h {
      SumOfTwo(Holders(c), Load(c, node, Card(card)), g, h);
    }
  }

  /** A card is wholly free or held by exactly one holder. */
  lemma CardsAreFreeOrHeld(c: Ctl, node: nat, card: nat)
    requires LedgerInv(c) && node < |c.pools| && card < |c.pools[node].total.gpus|
    requires c.pools[node].total.gpus[card].vramMb > 0
    ensures Available(c.pools[node], Card(card)) == Capacity(c.pools[node].total, Card(card))
            || Available(c.pools[node], Card(card)) == 0
    ensures Available(c.pools[node], Card(card)) == 0 <==> exists h :: HoldsCard(c, h, node, card)
  {
    assert BalancedAt(c, node, Card(card));
    if h :| HoldsCard(c, h, node, card) {
      HoldingACard(c, h, node, card);
      ClaimersAreHolders(c, h);
      SumOfOne(Holders(c), Load(c, node, Card(card)), h);
    } else {
      forall h | h in Holders(c) ensures Load(c, node, Card(card))(h) == 0 {
        HoldingACard(c, h, node, card);
      }
      SumBound(Holders(c), Load(c, node, Card(card)), 0);
    }
  }

  // Every step keeps the books

  /** Placing a single member takes its allocation off one pool. */
  lemma PlacedOne(pools: seq<PoolState>, usable: seq<bool>, spec: ResourceSpec, placed: Placed)
    requires GoodPools(pools) && |usable| == |pools|
    requires PlaceAll(pools, usable, [spec]) == Some([placed])
    ensures PlaceMember(pools, usable, spec) == Some(placed)
    ensures placed.node < |pools| && usable[placed.node]
    ensures GoodClaim(pools, placed) && Holds(pools[placed.node], placed.allocation)
  {
    PlaceSingle(pools, usable, spec);
    PlaceMemberTakes(pools, usable, spec, placed);
  }

  lemma ReleasedSingle(pools: seq<PoolState>, e: Execution)
    ensures ReleasedAll(pools, [e]) == ReleasedAt(pools, e)
  {
    assert [e][1..] == [];
    assert ReleasedAll(ReleasedAt(pools, e), []) == ReleasedAt(pools, e);
  }

  /** The parts of the state that say who holds what. */
  ghost predicate SameHolding(c: Ctl, d: Ctl) {
    SameClaims(c, d) && d.pools == c.pools
  }

  /** Inserting a run adds its jobs, all fresh, and leaves the others alone. */
  lemma SubmittedJobs(c: Ctl, run: RunId)
    requires run in c.specs && run in c.submitting && forall k | k in c.jobs :: k.run !in c.submitting
    ensures var jobs := Submitted(c, run);
            && jobs.Keys == c.jobs.Keys + Keys(run, c.specs[run])
            && (forall k | k in c.jobs :: jobs[k] == c.jobs[k])
            && forall k | k in jobs && k !in c.jobs ::
                 k.run == run && k.job in c.specs[run] && jobs[k] == NewJob(c.specs[run][k.job])
  {
  }

  lemma InsertedShapes(c: Ctl, run: RunId, jobs: map<JobKey, JobInstance>)
    requires Shapes(c) && Phases(c) && run in c.specs && run in c.submitting
    requires c.jobs.Keys <= jobs.Keys && forall k | k in c.jobs :: jobs[k] == c.jobs[k]
    requires forall k | k in jobs && k !in c.jobs :: k.run == run && exists spec :: jobs[k] == NewJob(spec)
    ensures var d := c.(jobs := jobs, submitting := c.submitting - {run}); Shapes(d) && Phases(d) && SameHolding(c, d)
  {
  }

  lemma CancelledShapes(c: Ctl, run: RunId)
    requires Shapes(c) && Phases(c)
    ensures var d := c.(jobs := Cancelling(c.jobs, run)); Shapes(d) && Phases(d) && SameHolding(c, d)
  {
    var jobs := Cancelling(c.jobs, run);
    assert jobs.Keys == c.jobs.Keys;
    forall k | k in jobs ensures jobs[k].state == c.jobs[k].state && jobs[k].executions == c.jobs[k].executions {
    }
    SameStatesShapes(c, jobs);
  }

  /** Jobs in the same states holding the same. */
  lemma SameStatesShapes(c: Ctl, jobs: map<JobKey, JobInstance>)
    requires Shapes(c) && Phases(c) && jobs.Keys == c.jobs.Keys
    requires forall k | k in jobs :: jobs[k].state == c.jobs[k].state && jobs[k].executions == c.jobs[k].executions
    ensures var d := c.(jobs := jobs); Shapes(d) && Phases(d) && SameHolding(c, d)
  {
  }

  lemma AcceptedShapes(c: Ctl, run: RunId, w: Workflow)
    requires Shapes(c) && Phases(c) && run !in c.specs
    ensures var d := c.(specs := c.specs[run := w], submitting := c.submitting + {run});
            Shapes(d) && Phases(d) && SameHolding(c, d)
  {
  }

  lemma ClientKept(c: Ctl, step: ClientStep, d: Ctl)
    requires Shapes(c) && Phases(c) && ClientNext(c, step, d)
    ensures Shapes(d) && Phases(d) && SameHolding(c, d)
  {
    match step
    case SubmitAccept(run, jobs) => AcceptedShapes(c, run, ById(jobs));
    case SubmitRow(_) =>
    case SubmitInsert(run) => SubmittedJobs(c, run); InsertedShapes(c, run, Submitted(c, run));
    case CancelRun(run) => CancelledShapes(c, run);
  }

  lemma AdvancedShapes(c: Ctl)
    requires Shapes(c) && Phases(c) && c.phase.Checking? && Flushed(c)
    ensures Shapes(Advanced(c)) && Phases(Advanced(c)) && SameHolding(c, Advanced(c))
  {
  }

  lemma CascadedShapes(c: Ctl)
    requires Shapes(c) && Phases(c) && c.phase.Cascading? && Flushed(c)
    ensures Shapes(Cascaded(c)) && Phases(Cascaded(c)) && SameHolding(c, Cascaded(c))
  {
  }

  lemma LaunchDoneShapes(c: Ctl, k: JobKey, result: LaunchResult)
    requires Shapes(c) && Phases(c) && k in c.tasks
    ensures Shapes(WithResult(c, k, result)) && Phases(WithResult(c, k, result)) && SameHolding(c, WithResult(c, k, result))
  {
  }

  lemma ReserveKept(c: Ctl, k: JobKey, online: seq<bool>, placed: Placed)
    requires LedgerInv(c) && c.phase.Reserving? && CanReserve(c, k, online, placed)
    ensures LedgerInv(ReservedFor(c, k, placed))
  {
    PlacedOne(c.pools, Usable(online, c.jobs[k]), c.jobs[k].spec.resources, placed);
    KeptWhenTaken(c, ReservedFor(c, k, placed), JobHolder(k), placed);
  }

  lemma StartedShapes(c: Ctl, k: JobKey)
    requires Shapes(c) && Phases(c) && c.phase.ApplyingLaunches? && k in c.tasks && k in c.jobs
    ensures Shapes(Started(c, k)) && Phases(Started(c, k)) && SameClaims(c, Started(c, k))
  {
  }

  lemma GivenBackShapes(c: Ctl, k: JobKey, job: Option<JobInstance>)
    requires Shapes(c) && Phases(c) && c.phase.ApplyingLaunches? && k in c.tasks
    requires job.Some? ==> job.value.executions == [] && !job.value.state.Running? && !job.value.state.TimedOut?
    ensures var d := GivenBack(c, k, job);
            Shapes(d) && Phases(d) && OneClaimChanged(c, d, JobHolder(k)) && ClaimOf(d, JobHolder(k)).None?
  {
  }

  lemma LaunchAppliedKept(c: Ctl, k: JobKey)
    requires LedgerInv(c) && c.phase.ApplyingLaunches? && k in c.tasks && c.tasks[k].result.Some?
    ensures LedgerInv(LaunchApplied(c, k))
  {
    if c.tasks[k].result == Some(Launched) {
      StartedShapes(c, k);
      KeptWhenSame(c, Started(c, k));
    } else {
      var job := NotStarted(c.pools, c.jobs[k], c.tasks[k]);
      GivenBackShapes(c, k, job);
      KeptWhenReleased(c, GivenBack(c, k, job), JobHolder(k), c.tasks[k].placed);
    }
  }

  /** Steps that only move jobs between states, or the tick along. */
  lemma AdmitShapes(c: Ctl, step: AdmitStep, d: Ctl)
    requires Shapes(c) && Phases(c) && AdmitNext(c, step, d) && !step.ReserveJob? && !step.ApplyLaunch?
    ensures Shapes(d) && Phases(d) && SameHolding(c, d)
  {
    match step
    case AdvancePending => AdvancedShapes(c);
    case CascadeSkipped => CascadedShapes(c);
    case LaunchDone(k, result) => LaunchDoneShapes(c, k, result);
    case _ =>
  }

  lemma AdmitKept(c: Ctl, step: AdmitStep, d: Ctl)
    requires LedgerInv(c) && AdmitNext(c, step, d)
    ensures LedgerInv(d)
  {
    match step
    case ReserveJob(k, online, placed) => ReserveKept(c, k, online, placed);
    case ApplyLaunch(k) => LaunchAppliedKept(c, k);
    case _ => AdmitShapes(c, step, d); KeptWhenSame(c, d);
  }

  lemma FinishedShapes(c: Ctl, k: JobKey, job: JobInstance)
    requires Shapes(c) && Phases(c) && c.phase.ApplyingPolls? && k in c.polls
    requires job.executions == [] && !job.state.Running? && !job.state.TimedOut?
    ensures var d := Finished(c, k, job);
            Shapes(d) && Phases(d) && OneClaimChanged(c, d, JobHolder(k)) && ClaimOf(d, JobHolder(k)).None?
    ensures |c.jobs[k].executions| == 1 && ClaimOf(c, JobHolder(k)) == Some(c.jobs[k].executions[0])
  {
    assert c.tasks == map[];
    assert c.jobs[k].state.Running?;
  }

  lemma PollAppliedKept(c: Ctl, k: JobKey)
    requires LedgerInv(c) && c.phase.ApplyingPolls? && k in c.polls && c.polls[k].reply.Some?
    ensures LedgerInv(PollApplied(c, k))
  {
    var d := PollApplied(c, k);
    if Over(c.polls[k].reply.value) {
      var job := Ended(c.jobs[k], c.polls[k]);
      FinishedShapes(c, k, job);
      var e := c.jobs[k].executions[0];
      assert c.jobs[k].executions == [e];
      ReleasedSingle(c.pools, e);
      KeptWhenReleased(c, Finished(c, k, job), JobHolder(k), e);
    } else {
      KeptWhenSame(c, d);
    }
  }

  lemma PollShapes(c: Ctl, step: PollStep, d: Ctl)
    requires Shapes(c) && Phases(c) && PollNext(c, step, d) && !step.ApplyPoll?
    ensures Shapes(d) && Phases(d) && SameClaims(c, d) && d.pools == c.pools
  {
    match step
    case Snapshot => SnapshotShapes(c);
    case _ =>
  }

  lemma SnapshotShapes(c: Ctl)
    requires Shapes(c) && Phases(c) && c.phase.Snapshotting?
    ensures var d := c.(polls := Snapshots(c.jobs), phase := Polling); Shapes(d) && Phases(d) && SameClaims(c, d)
  {
  }

  lemma PollKept(c: Ctl, step: PollStep, d: Ctl)
    requires LedgerInv(c) && PollNext(c, step, d)
    ensures LedgerInv(d)
  {
    match step
    case ApplyPoll(k) => PollAppliedKept(c, k);
    case _ => PollShapes(c, step, d); KeptWhenSame(c, d);
  }

  lemma QualifyKept(c: Ctl, id: nat, node: nat, index: nat)
    requires LedgerInv(c) && c.phase.Checking? && CanQualify(c, id, node, index)
    ensures LedgerInv(Qualifying(c, id, Placed(node, ReserveCard(c.pools[node], index).value)))
  {
    var alloc := ReserveCard(c.pools[node], index).value;
    ReserveCardMeets(c.pools[node], index, alloc);
    KeptWhenTaken(c, Qualifying(c, id, Placed(node, alloc)), Qualification(id), Placed(node, alloc));
  }

  lemma CardsKept(c: Ctl, step: CardStep, d: Ctl)
    requires LedgerInv(c) && CardNext(c, step, d)
    ensures LedgerInv(d)
  {
    match step
    case ReserveForQualification(id, node, index) => QualifyKept(c, id, node, index);
    case EndQualification(id) => KeptWhenReleased(c, d, Qualification(id), c.qualifying[id]);
    case BlockCards(_, _) => KeptWhenSame(c, d);
  }

  lemma WrittenShapes(c: Ctl, k: JobKey)
    requires Shapes(c) && Phases(c)
    ensures Shapes(Written(c, k)) && Phases(Written(c, k)) && SameClaims(c, Written(c, k))
  {
  }

  /** Any step but a restart keeps the balance, whatever executors answer. */
  lemma LedgerKept(c: Ctl, step: Step, d: Ctl)
    requires LedgerInv(c) && Next(c, step, d) && !step.Restart?
    ensures LedgerInv(d)
  {
    match step
    case Client(s) => ClientKept(c, s, d); KeptWhenSame(c, d);
    case Admit(s) => AdmitKept(c, s, d);
    case Poll(s) => PollKept(c, s, d);
    case Cards(s) => CardsKept(c, s, d);
    case Flush(k) => WrittenShapes(c, k); KeptWhenSame(c, d);
  }
}

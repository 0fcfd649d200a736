/** Crash and restart: what the stored rows guarantee, and what the controller rebuilds from them:
 *  src/daemon/recover.rs. */
module Recovery {
  import opened Wrappers
  import opened Spec
  import opened Pool
  import opened Placement
  import opened Model
  import opened Controller
  import opened Ledger
  import opened Dependencies
  import opened Stored
  import opened Sums
  import Dag

  /** What jobs that ended held, until their rows are written. */
  function ReleasedLoad(c: Ctl, node: nat, res: Resource): JobKey -> nat {
    k => if k in c.released then LoadOf(Some(c.released[k]), node, res) else 0
  }

  ghost predicate FitsAt(c: Ctl, node: nat, res: Resource)
    requires node < |c.pools|
  {
    Held(c, node, res) + Sum(c.released.Keys, ReleasedLoad(c, node, res)) <= Capacity(c.pools[node].total, res)
  }

  /** What is held and what rows still show as held fit each node together. */
  ghost predicate FitInv(c: Ctl) {
    && (forall k | k in c.released :: GoodClaim(c.pools, c.released[k]))
    && forall node: nat, res | node < |c.pools| :: FitsAt(c, node, res)
  }

  lemma NothingReleasedFits(c: Ctl)
    requires Balanced(c) && c.released == map[]
    ensures FitInv(c)
  {
    forall node: nat, res | node < |c.pools| ensures FitsAt(c, node, res) {
      assert BalancedAt(c, node, res);
      assert c.released.Keys == {};
    }
  }

  ghost predicate NoLessFree(pools: seq<PoolState>, now: seq<PoolState>) {
    SameTotals(pools, now) && forall node: nat, res | node < |pools| ::
        Available(pools[node], res) <= Available(now[node], res)
  }

  /** With nothing taken and no more to remember, what fitted still fits. */
  lemma FitsWhenFreer(c: Ctl, d: Ctl)
    requires Balanced(c) && Balanced(d) && FitInv(c) && NoLessFree(c.pools, d.pools)
    requires forall k | k in d.released :: k in c.released && d.released[k] == c.released[k]
    ensures FitInv(d)
  {
    forall node: nat, res | node < |d.pools| ensures FitsAt(d, node, res) {
      assert BalancedAt(c, node, res) && BalancedAt(d, node, res) && FitsAt(c, node, res);
      assert Available(c.pools[node], res) <= Available(d.pools[node], res);
      SumSame(d.released.Keys, ReleasedLoad(d, node, res), ReleasedLoad(c, node, res));
      SumSubset(d.released.Keys, c.released.Keys, ReleasedLoad(c, node, res));
    }
    forall k | k in d.released ensures GoodClaim(d.pools, d.released[k]) {
      assert GoodClaim(c.pools, c.released[k]);
    }
  }

  lemma RememberedOneMore(c: Ctl, d: Ctl, k: JobKey, e: Execution, node: nat, res: Resource)
    requires k !in c.released && d.released == c.released[k := e]
    ensures Sum(d.released.Keys, ReleasedLoad(d, node, res)) ==
            Sum(c.released.Keys, ReleasedLoad(c, node, res)) + LoadOf(Some(e), node, res)
  {
    SumSplit(d.released.Keys, ReleasedLoad(d, node, res), k);
    assert d.released.Keys - {k} == c.released.Keys;
    SumSame(c.released.Keys, ReleasedLoad(c, node, res), ReleasedLoad(d, node, res));
  }

  /** A claim moved from the ledger to what is remembered. */
  lemma FitsWhenRemembered(c: Ctl, d: Ctl, k: JobKey, e: Execution)
    requires FitInv(c) && GoodClaim(c.pools, e) && SameTotals(c.pools, d.pools)
    requires OneClaimChanged(c, d, JobHolder(k)) && ClaimOf(c, JobHolder(k)) == Some(e) && ClaimOf(d, JobHolder(k)).None?
    requires k !in c.released && d.released == c.released[k := e]
    ensures FitInv(d)
  {
    forall node: nat, res | node < |d.pools| ensures FitsAt(d, node, res) {
      assert FitsAt(c, node, res);
      HeldAfterOneChange(c, d, JobHolder(k), node, res);
      RememberedOneMore(c, d, k, e, node, res);
    }
    forall j | j in d.released ensures GoodClaim(d.pools, d.released[j]) {
      if j != k {
        assert GoodClaim(c.pools, c.released[j]);
      }
    }
  }

  lemma FitsWhenFinished(c: Ctl, k: JobKey, job: JobInstance)
    requires LedgerInv(c) && FitInv(c) && c.phase.ApplyingPolls? && k in c.polls && k !in c.toWrite
    requires job.executions == [] && !job.state.Running? && !job.state.TimedOut?
    ensures FitInv(Finished(c, k, job))
  {
    var d := Finished(c, k, job);
    FinishedShapes(c, k, job);
    assert GoodClaim(c.pools, c.jobs[k].executions[0]);
    ReleasedAllTotals(c.pools, c.jobs[k].executions);
    FitsWhenRemembered(c, d, k, c.jobs[k].executions[0]);
  }

  lemma CardsFreer(c: Ctl, step: CardStep, d: Ctl)
    requires GoodPools(c.pools) && CardNext(c, step, d) && !step.ReserveForQualification?
    ensures NoLessFree(c.pools, d.pools)
  {
    if step.EndQualification? {
      var placed := c.qualifying[step.id];
    }
  }

  lemma PollFits(c: Ctl, step: PollStep, d: Ctl)
    requires LedgerInv(c) && InFlightStored(c) && FitInv(c) && PollNext(c, step, d) && Balanced(d)
    ensures FitInv(d)
  {
    if step.ApplyPoll? && Over(c.polls[step.key].reply.value) {
      FitsWhenFinished(c, step.key, Ended(c.jobs[step.key], c.polls[step.key]));
    } else {
      FitsWhenFreer(c, d);
    }
  }

  lemma FitKept(c: Ctl, step: Step, d: Ctl)
    requires LedgerInv(c) && LedgerInv(d) && InFlightStored(c) && FitInv(c) && Next(c, step, d) && !step.Restart?
    ensures FitInv(d)
  {
    match step
    case Client(s) => ClientFrame(c, s, d); FitsWhenFreer(c, d);
    case Admit(s) => AdmitFrame(c, s, d); assert c.released == map[]; NothingReleasedFits(d);
    case Poll(s) => PollFits(c, s, d);
    case Cards(s) =>
      CardFrame(c, s, d);
      if s.ReserveForQualification? {
        NothingReleasedFits(d);
      } else {
        CardsFreer(c, s, d);
        FitsWhenFreer(c, d);
      }
    case Flush(k) => FitsWhenFreer(c, d);
  }

  // What the rows promise

  function RowLoad(rows: map<JobKey, Row>, node: nat, res: Resource): JobKey -> nat {
    k => if k in rows then LoadOf(rows[k].held, node, res) else 0
  }

  /** The Running rows name whole cards of real nodes and fit every node together. */
  ghost predicate RowsSound(rows: map<JobKey, Row>, pools: seq<PoolState>) {
    && (forall k | k in RunningRows(rows) :: GoodClaim(pools, rows[k].held.value))
    && forall node: nat, res | node < |pools| :: RowsFitAt(rows, pools, node, res)
  }

  ghost predicate RowsFitAt(rows: map<JobKey, Row>, pools: seq<PoolState>, node: nat, res: Resource)
    requires node < |pools|
  {
    Sum(RunningRows(rows), RowLoad(rows, node, res)) <= Capacity(pools[node].total, res)
  }

  ghost predicate AllInv(c: Ctl) {
    LedgerInv(c) && DepInv(c) && RowsInv(c) && FitInv(c)
  }

  /** A Running row's job still holds what the row says, or has just ended. */
  lemma RunningRowIsBacked(c: Ctl, k: JobKey)
    requires Shapes(c) && GoodClaims(c) && k in RunningRows(c.rows) && RowElsewhere(c, k)
    requires k in c.jobs ==> RowFollows(c, k)
    requires forall j | j in c.released :: GoodClaim(c.pools, c.released[j])
    ensures k in c.jobs
    ensures if k in c.toWrite then k in c.released && c.released[k] == c.rows[k].held.value
            else ClaimOf(c, JobHolder(k)) == c.rows[k].held
    ensures GoodClaim(c.pools, c.rows[k].held.value)
  {
    assert k in c.jobs;
    if k !in c.toWrite {
      assert c.rows[k] == RowOf(c.jobs[k]);
      assert k !in c.tasks;
      assert GoodClaim(c.pools, ClaimOf(c, JobHolder(k)).value);
    }
  }

  /** What each Running row shows as held is in the ledger, or remembered. */
  ghost predicate RowsBacked(c: Ctl) {
    forall k | k in RunningRows(c.rows) ::
      && k in c.jobs && GoodClaim(c.pools, c.rows[k].held.value)
      && if k in c.toWrite then k in c.released && c.released[k] == c.rows[k].held.value
         else ClaimOf(c, JobHolder(k)) == c.rows[k].held
  }

  lemma RunningRowsAreBacked(c: Ctl)
    requires Shapes(c) && GoodClaims(c) && RowsInv(c) && FitInv(c)
    ensures RowsBacked(c)
  {
    forall k | k in RunningRows(c.rows)
      ensures k in c.jobs && GoodClaim(c.pools, c.rows[k].held.value)
      ensures if k in c.toWrite then k in c.released && c.released[k] == c.rows[k].held.value
              else ClaimOf(c, JobHolder(k)) == c.rows[k].held
    {
      RunningRowIsBacked(c, k);
    }
  }

  function LedgerLoad(c: Ctl, node: nat, res: Resource): JobKey -> nat {
    k => LoadOf(ClaimOf(c, JobHolder(k)), node, res)
  }

  function BothLoads(c: Ctl, node: nat, res: Resource): JobKey -> nat {
    k => LoadOf(ClaimOf(c, JobHolder(k)), node, res) + (if k in c.released then LoadOf(Some(c.released[k]), node,
        res) else 0)
  }

  /** The jobs' part of the ledger is no more than all of it. */
  lemma LedgerShare(c: Ctl, keys: set<JobKey>, node: nat, res: Resource)
    requires keys <= c.jobs.Keys
    ensures Sum(keys, LedgerLoad(c, node, res)) <= Held(c, node, res)
  {
    var holders := set k | k in keys :: JobHolder(k);
    SumRename(keys, LedgerLoad(c, node, res), (k: JobKey) => JobHolder(k), holders, Load(c, node, res));
    SumSubset(holders, Holders(c), Load(c, node, res));
  }

  lemma RememberedShare(c: Ctl, keys: set<JobKey>, node: nat, res: Resource)
    ensures Sum(keys, ReleasedLoad(c, node, res)) <= Sum(c.released.Keys, ReleasedLoad(c, node, res))
  {
    SumSubset(keys * c.released.Keys, c.released.Keys, ReleasedLoad(c, node, res));
    SumExtend(keys * c.released.Keys, keys, ReleasedLoad(c, node, res));
  }

  lemma RunningRowsFit(c: Ctl, node: nat, res: Resource)
    requires RowsBacked(c) && node < |c.pools| && FitsAt(c, node, res)
    ensures RowsFitAt(c.rows, c.pools, node, res)
  {
    var keys := RunningRows(c.rows);
    SumLe(keys, RowLoad(c.rows, node, res), BothLoads(c, node, res));
    SumPlus(keys, LedgerLoad(c, node, res), ReleasedLoad(c, node, res), BothLoads(c, node, res));
    LedgerShare(c, keys, node, res);
    RememberedShare(c, keys, node, res);
  }

  /** After any prefix of the writes, the Running rows can be taken back whole. */
  lemma StoredRowsAreSound(c: Ctl)
    requires AllInv(c)
    ensures RowsSound(c.rows, c.pools)
  {
    RunningRowsAreBacked(c);
    forall node: nat, res | node < |c.pools| ensures RowsFitAt(c.rows, c.pools, node, res) {
      assert FitsAt(c, node, res);
      RunningRowsFit(c, node, res);
    }
  }

  lemma HeldCardLoad(total: SystemResources, gpus: seq<GpuAllocation>, card: nat)
    requires WholeCards(total, gpus) && card in Indices(gpus)
    ensures CardVram(gpus, card) == Capacity(total, Card(card)) > 0
  {
    CardVramOfWhole(total, gpus, card);
    var i :| 0 <= i < |gpus| && gpus[i].index as nat == card;
  }

  /** No card is in two Running rows. */
  lemma RunningRowsShareNoCard(rows: map<JobKey, Row>, pools: seq<PoolState>, j: JobKey, k: JobKey, card: nat)
    requires RowsSound(rows, pools) && j in RunningRows(rows) && k in RunningRows(rows)
    requires rows[j].held.value.node == rows[k].held.value.node
    requires card in Indices(rows[j].held.value.allocation.gpus) && card in Indices(rows[k].held.value.allocation.gpus)
    ensures j == k
  {
    assert GoodClaim(pools, rows[j].held.value) && GoodClaim(pools, rows[k].held.value);
    var node := rows[j].held.value.node;
    HeldCardLoad(pools[node].total, rows[j].held.value.allocation.gpus, card);
    HeldCardLoad(pools[node].total, rows[k].held.value.allocation.gpus, card);
    assert RowsFitAt(rows, pools, node, Card(card));
    if j != k {
      SumOfTwo(RunningRows(rows), RowLoad(rows, node, Card(card)), j, k);
    }
  }

  // Rebuilding the pools

  lemma FreshPoolIsFree(total: SystemResources, res: Resource)
    ensures Available(NewPool(total), res) == Capacity(total, res)
  {
  }

  /** Pools free except for exactly what these rows hold. */
  ghost predicate LessRows(rows: map<JobKey, Row>, keys: set<JobKey>, pools: seq<PoolState>, now: seq<PoolState>) {
    && |now| == |pools|
    && (forall n | 0 <= n < |now| :: SameShape(now[n], NewPool(pools[n].total)))
    && forall node: nat, res | node < |now| :: LessRowsAt(rows, keys, pools, now, node, res)
  }

  ghost predicate LessRowsAt(rows: map<JobKey, Row>, keys: set<JobKey>, pools: seq<PoolState>, now: seq<PoolState>,
                             node: nat, res: Resource)
    requires node < |now| == |pools|
  {
    Available(now[node], res) + Sum(keys, RowLoad(rows, node, res)) == Capacity(pools[node].total, res)
  }

  /** One more row: what it holds is free, since all the Running rows fit together. */
  lemma BookOneMore(rows: map<JobKey, Row>, pools: seq<PoolState>, keys: set<JobKey>, k: JobKey, before: seq<PoolState>)
    requires RowsSound(rows, pools) && keys <= RunningRows(rows) && k in RunningRows(rows) && k !in keys
    requires LessRows(rows, keys, pools, before)
    ensures LessRows(rows, keys + {k}, pools, BookedAt(before, rows[k].held.value))
  {
    var now := BookedAt(before, rows[k].held.value);
    forall node: nat, res | node < |now| ensures LessRowsAt(rows, keys + {k}, pools, now, node, res) {
      var f := RowLoad(rows, node, res);
      assert RowsFitAt(rows, pools, node, res) && LessRowsAt(rows, keys, pools, before, node, res);
      SumSubset(keys + {k}, RunningRows(rows), f);
      SumSplit(keys + {k}, f, k);
      assert keys + {k} - {k} == keys;
    }
  }

  /** Booking rows one by one never cuts anything off: the pools end up at their totals less exactly those. */
  lemma {:induction false} BookingIsExact(rows: map<JobKey, Row>, pools: seq<PoolState>, order: seq<JobKey>)
    requires RowsSound(rows, pools) && Dag.NoDuplicates(order) && Dag.SetOf(order) <= RunningRows(rows)
    ensures LessRows(rows, Dag.SetOf(order), pools, BookedRows(FreshPools(pools), rows, order))
    decreases order
  {
    if order == [] {
      NoRowsBooked(rows, pools);
    } else {
      var front, k := order[..|order| - 1], order[|order| - 1];
      assert order == front + [k];
      assert Dag.SetOf(order) == Dag.SetOf(front) + {k};
      assert k in RunningRows(rows);
      BookingIsExact(rows, pools, front);
      BookOneMore(rows, pools, Dag.SetOf(front), k, BookedRows(FreshPools(pools), rows, front));
    }
  }

  lemma NoRowsBooked(rows: map<JobKey, Row>, pools: seq<PoolState>)
    ensures LessRows(rows, Dag.SetOf([]), pools, FreshPools(pools))
  {
    assert Dag.SetOf<JobKey>([]) == {};
    forall node: nat, res | node < |pools| ensures LessRowsAt(rows, {}, pools, FreshPools(pools), node, res) {
      FreshPoolIsFree(pools[node].total, res);
    }
  }

  // The rebuilt state

  ghost predicate RestoredAs(c: Ctl, found: set<JobKey>, jobs: map<JobKey, JobInstance>) {
    && (forall k | k in jobs ::
          && k.run in Unfinished(c.rows) && k.run in c.specs && k.job in c.specs[k.run]
          && jobs[k] == Restored(c.specs[k.run][k.job], c.rows, k, found))
    && (forall k: JobKey | k.run in Unfinished(c.rows) && k.run in c.specs && k.job in c.specs[k.run] :: k in jobs)
  }

  /** All of a restarted controller's state but the pools. */
  ghost predicate Rebuilt(c: Ctl, found: set<JobKey>, d: Ctl) {
    && found <= RunningRows(c.rows)
    && RestoredAs(c, found, d.jobs)
    && d.tasks == map[] && d.polls == map[] && d.qualifying == map[] && d.phase.Checking?
    && d.toWrite == {} && d.released == map[] && d.specs == c.specs && d.submitting == {}
    && d.rows.Keys == c.rows.Keys
    && forall k | k in c.rows ::
         d.rows[k] == if c.rows[k].state.Running? && k !in found then Row(Interrupted, None) else c.rows[k]
  }

  lemma RestartIsRebuilt(c: Ctl, found: set<JobKey>, order: seq<JobKey>)
    requires CanRestart(c, found, order)
    ensures Rebuilt(c, found, Recovered(c, found, order))
  {
    forall k: JobKey | k.run in Unfinished(c.rows) && k.run in c.specs && k.job in c.specs[k.run]
      ensures k in RestoredJobs(c, found)
    {
      assert k == JobKey(k.run, k.job);
    }
  }

  lemma OpenRowsAreRestored(c: Ctl, found: set<JobKey>, d: Ctl, k: JobKey)
    requires RowShapes(c) && Rebuilt(c, found, d) && k in c.rows && !c.rows[k].state.IsTerminal()
    ensures k in d.jobs
  {
    assert k.run in Unfinished(c.rows);
  }

  lemma RestoredShapes(c: Ctl, found: set<JobKey>, d: Ctl)
    requires RowShapes(c) && Rebuilt(c, found, d)
    ensures Shapes(d) && Phases(d)
  {
    forall k | k in d.jobs
      ensures |d.jobs[k].executions| == (if d.jobs[k].state.Running? then 1 else 0) && !d.jobs[k].state.TimedOut?
    {
      RestoredJobShape(c, found, d.jobs, k);
    }
  }

  lemma RestoredJobShape(c: Ctl, found: set<JobKey>, jobs: map<JobKey, JobInstance>, k: JobKey)
    requires RowShapes(c) && RestoredAs(c, found, jobs) && k in jobs
    ensures |jobs[k].executions| == (if jobs[k].state.Running? then 1 else 0) && !jobs[k].state.TimedOut?
  {
  }

  lemma RestoredExecutions(c: Ctl, found: set<JobKey>, d: Ctl, k: JobKey)
    requires RowShapes(c) && Rebuilt(c, found, d)
    ensures k in found ==> k in d.jobs && d.jobs[k].executions == [c.rows[k].held.value]
    ensures k in d.jobs && k !in found ==> d.jobs[k].executions == []
  {
    if k in found {
      OpenRowsAreRestored(c, found, d, k);
    }
  }

  /** Exactly the found jobs hold something, and each what its row says. */
  lemma RestoredClaim(c: Ctl, found: set<JobKey>, d: Ctl, h: Holder)
    requires RowShapes(c) && Rebuilt(c, found, d)
    ensures ClaimOf(d, h) == if h.JobHolder? && h.key in found then c.rows[h.key].held else None
    ensures h.JobHolder? && h.key in found ==> h.key in d.jobs
  {
    if h.JobHolder? {
      RestoredExecutions(c, found, d, h.key);
    }
  }

  lemma RestoredHeld(c: Ctl, found: set<JobKey>, d: Ctl, node: nat, res: Resource)
    requires RowShapes(c) && Rebuilt(c, found, d)
    ensures Held(d, node, res) == Sum(found, RowLoad(c.rows, node, res))
  {
    var holders := set k | k in found :: JobHolder(k);
    forall h ensures ClaimOf(d, h) == (if h.JobHolder? && h.key in found then c.rows[h.key].held else None)
                     && (h.JobHolder? && h.key in found ==> h.key in d.jobs)
    {
      RestoredClaim(c, found, d, h);
    }
    SumRename(found, RowLoad(c.rows, node, res), (k: JobKey) => JobHolder(k), holders, Load(d, node, res));
    SumExtend(holders, Holders(d), Load(d, node, res));
  }

  lemma RestoredBalance(c: Ctl, found: set<JobKey>, d: Ctl)
    requires RowShapes(c) && Rebuilt(c, found, d) && LessRows(c.rows, found, c.pools, d.pools)
    ensures SameTotals(c.pools, d.pools) && Balanced(d)
  {
    forall node: nat, res | node < |d.pools| ensures BalancedAt(d, node, res) {
      RestoredHeld(c, found, d, node, res);
      assert LessRowsAt(c.rows, found, c.pools, d.pools, node, res);
    }
  }

  lemma RestoredPools(c: Ctl, d: Ctl)
    requires GoodPools(c.pools) && Balanced(d) && |d.pools| == |c.pools|
    requires forall n | 0 <= n < |d.pools| :: SameShape(d.pools[n], NewPool(c.pools[n].total))
    ensures GoodPools(d.pools)
  {
    forall n | 0 <= n < |d.pools| ensures Shaped(d.pools[n]) && WellFormed(d.pools[n]) {
      assert WellFormed(c.pools[n]);
      forall res ensures Available(d.pools[n], res) <= Capacity(d.pools[n].total, res) {
        assert BalancedAt(d, n, res);
      }
    }
  }

  lemma RestoredGoodClaims(c: Ctl, found: set<JobKey>, d: Ctl)
    requires RowShapes(c) && Rebuilt(c, found, d) && RowsSound(c.rows, c.pools) && SameTotals(c.pools, d.pools)
    ensures GoodClaims(d)
  {
    forall h | ClaimOf(d, h).Some? ensures GoodClaim(d.pools, ClaimOf(d, h).value) {
      RestoredClaim(c, found, d, h);
      assert GoodClaim(c.pools, c.rows[h.key].held.value);
    }
  }

  lemma RestoredLedger(c: Ctl, found: set<JobKey>, d: Ctl)
    requires GoodPools(c.pools) && RowShapes(c) && RowsSound(c.rows, c.pools)
    requires Rebuilt(c, found, d) && LessRows(c.rows, found, c.pools, d.pools)
    ensures LedgerInv(d) && SameTotals(c.pools, d.pools) && FitInv(d)
  {
    RestoredShapes(c, found, d);
    RestoredBalance(c, found, d);
    RestoredPools(c, d);
    RestoredGoodClaims(c, found, d);
    NothingReleasedFits(d);
  }

  // Rows and dependencies after a restart

  lemma InterruptedOrder(c: Ctl, found: set<JobKey>, d: Ctl, k: JobKey)
    requires RowShapes(c) && Rebuilt(c, found, d) && k in c.rows && RowInOrder(c, k)
    ensures RowInOrder(d, k)
  {
    if c.rows[k].state.Skipped? {
      var dep :| dep in c.specs[k.run][k.job].dependsOn && RowEndedBadly(c.rows, JobKey(k.run, dep));
      assert RowEndedBadly(d.rows, JobKey(k.run, dep));
    }
    if c.rows[k].state.Admitted() {
      forall dep | dep in c.specs[k.run][k.job].dependsOn ensures RowIs(d.rows, JobKey(k.run, dep), Succeeded) {
        assert RowIs(c.rows, JobKey(k.run, dep), Succeeded);
      }
    }
  }

  lemma RestoredFollows(c: Ctl, found: set<JobKey>, d: Ctl, k: JobKey)
    requires RowShapes(c) && Rebuilt(c, found, d) && k in d.jobs
    ensures if k in d.rows then d.rows[k] == RowOf(d.jobs[k]) else d.jobs[k].state.Pending?
    ensures d.jobs[k].spec == c.specs[k.run][k.job] && d.jobs[k].rejected == []
  {
  }

  lemma RestoredInOrder(c: Ctl, found: set<JobKey>, d: Ctl, k: JobKey)
    requires RowShapes(c) && Rebuilt(c, found, d) && k in d.jobs && (k in c.rows ==> RowInOrder(c, k))
    ensures InOrder(d.jobs, k)
  {
    RestoredFollows(c, found, d, k);
    if k in c.rows {
      InterruptedOrder(c, found, d, k);
      forall dep | JobKey(k.run, dep) in d.rows
        ensures JobKey(k.run, dep) in d.jobs && d.jobs[JobKey(k.run, dep)].state == d.rows[JobKey(k.run, dep)].state
      {
        assert JobKey(k.run, dep) in c.rows;
        RestoredFollows(c, found, d, JobKey(k.run, dep));
      }
      if d.jobs[k].state.Skipped? {
        var dep :| dep in c.specs[k.run][k.job].dependsOn && RowEndedBadly(d.rows, JobKey(k.run, dep));
        assert HasEndedBadly(d.jobs, JobKey(k.run, dep));
      }
      if d.jobs[k].state.Admitted() {
        forall dep | dep in d.jobs[k].spec.dependsOn ensures HasSucceeded(d.jobs, JobKey(k.run, dep)) {
          assert RowIs(d.rows, JobKey(k.run, dep), Succeeded);
        }
      }
    }
  }

  lemma RestoredOrder(c: Ctl, found: set<JobKey>, d: Ctl)
    requires RowShapes(c) && Rebuilt(c, found, d) && forall k | k in c.rows :: RowInOrder(c, k)
    ensures AllInOrder(d.jobs)
  {
    forall k | k in d.jobs ensures InOrder(d.jobs, k) {
      RestoredInOrder(c, found, d, k);
    }
  }

  lemma RestoredDeps(c: Ctl, found: set<JobKey>, d: Ctl)
    requires RowShapes(c) && Rebuilt(c, found, d) && AllInOrder(d.jobs) && GoodSpecs(c) && SameTotals(c.pools, d.pools)
    ensures DepInv(d)
  {
    SpecsSame(c, d);
    forall k | k in d.jobs && (d.jobs[k].state.Pending? || d.jobs[k].state.Queued?)
      ensures CouldGoElsewhere(d.pools, d.jobs[k]) {
      RestoredFollows(c, found, d, k);
      assert FitsSomewhere(d.pools, d.specs[k.run][k.job].resources);
      FreshIsHopeful(d.pools, d.jobs[k]);
    }
    forall k | k in d.jobs ensures d.jobs[k].spec == d.specs[k.run][k.job] {
      RestoredFollows(c, found, d, k);
    }
  }

  lemma RestoredRow(c: Ctl, found: set<JobKey>, d: Ctl, k: JobKey)
    requires RowShapes(c) && Rebuilt(c, found, d) && k in c.rows && RowInOrder(c, k)
    ensures RowElsewhere(d, k) && RowInOrder(d, k)
  {
    InterruptedOrder(c, found, d, k);
    if !c.rows[k].state.IsTerminal() {
      OpenRowsAreRestored(c, found, d, k);
    }
  }

  lemma RestoredRowFollows(c: Ctl, found: set<JobKey>, d: Ctl, k: JobKey)
    requires RowShapes(c) && Rebuilt(c, found, d) && k in d.jobs
    ensures RowFollows(d, k)
  {
    RestoredFollows(c, found, d, k);
  }

  /** With nothing left to write, all that jobs rest on is stored. */
  lemma RestedOnIsStored(d: Ctl, k: JobKey)
    requires d.toWrite == {} && k in d.jobs && InOrder(d.jobs, k)
    ensures DepsStored(d, k)
  {
  }

  lemma RestoredRowShapes(c: Ctl, found: set<JobKey>, d: Ctl)
    requires RowShapes(c) && Rebuilt(c, found, d)
    ensures RowShapes(d) && InFlightStored(d)
  {
  }

  lemma RestoredRows(c: Ctl, found: set<JobKey>, d: Ctl)
    requires RowShapes(c) && Rebuilt(c, found, d) && AllInOrder(d.jobs) && forall k | k in c.rows :: RowInOrder(c, k)
    ensures RowsInv(d)
  {
    RestoredRowShapes(c, found, d);
    forall k | k in d.jobs ensures RowFollows(d, k) && DepsStored(d, k) {
      RestoredRowFollows(c, found, d, k);
      assert InOrder(d.jobs, k);
      RestedOnIsStored(d, k);
    }
    forall k | k in d.rows ensures RowElsewhere(d, k) && RowInOrder(d, k) {
      RestoredRow(c, found, d, k);
    }
  }

  /** A restart rebuilds a state in which everything holds again, whichever running jobs it finds, with pools at their
      totals less exactly what those hold. */
  lemma RestartRebuilds(c: Ctl, found: set<JobKey>, order: seq<JobKey>, d: Ctl)
    requires AllInv(c) && Next(c, Restart(found, order), d)
    ensures AllInv(d)
    ensures LessRows(c.rows, found, c.pools, d.pools)
  {
    RestartIsRebuilt(c, found, order);
    StoredRowsAreSound(c);
    BookingIsExact(c.rows, c.pools, order);
    RestoredLedger(c, found, d);
    RestoredOrder(c, found, d);
    RestoredDeps(c, found, d);
    RestoredRows(c, found, d);
  }

  // Every run

  lemma InitHolds(c: Ctl)
    requires Init(c)
    ensures AllInv(c)
  {
    forall n | 0 <= n < |c.pools| ensures Shaped(c.pools[n]) && WellFormed(c.pools[n]) {
      forall res ensures Available(c.pools[n], res) <= Capacity(c.pools[n].total, res) {
        FreshPoolIsFree(c.pools[n].total, res);
      }
    }
    forall node: nat, res | node < |c.pools| ensures BalancedAt(c, node, res) {
      FreshPoolIsFree(c.pools[node].total, res);
      assert Holders(c) == {};
    }
    NothingReleasedFits(c);
  }

  lemma StepKeepsBooks(c: Ctl, step: Step, d: Ctl)
    requires LedgerInv(c) && RowsInv(c) && FitInv(c) && Next(c, step, d) && !step.Restart?
    ensures LedgerInv(d) && FitInv(d)
  {
    LedgerKept(c, step, d);
    FitKept(c, step, d);
  }

  lemma StepKeepsOrder(c: Ctl, step: Step, d: Ctl)
    requires LedgerInv(c) && DepInv(c) && RowsInv(c) && Next(c, step, d) && !step.Restart?
    ensures DepInv(d) && RowsInv(d)
  {
    DepsKept(c, step, d);
    StoredKept(c, step, d);
  }

  /** Every step keeps every invariant, restarts included. */
  lemma StepKeeps(c: Ctl, step: Step, d: Ctl)
    requires AllInv(c) && Next(c, step, d)
    ensures AllInv(d)
  {
    if step.Restart? {
      RestartRebuilds(c, step.found, step.order, d);
    } else {
      StepKeepsBooks(c, step, d);
      StepKeepsOrder(c, step, d);
    }
  }

  /** A run of the controller: each state follows from the one before, and crashes may come anywhere. */
  ghost predicate IsRun(states: seq<Ctl>, steps: seq<Step>) {
    && |states| == |steps| + 1
    && Init(states[0])
    && forall i | 0 <= i < |steps| :: Next(states[i], steps[i], states[i + 1])
  }

  lemma {:induction false} NextStateIsGood(states: seq<Ctl>, steps: seq<Step>, i: nat)
    requires IsRun(states, steps) && i < |steps|
    ensures AllInv(states[i + 1])
    decreases i, 1
  {
    EveryStateIsGood(states, steps, i);
    var c, step, d := states[i], steps[i], states[i + 1];
    StepKeeps(c, step, d);
  }

  /** The books balance, cards are exclusive, jobs run in dependency order and the rows can be recovered from, in every
      state of every run. */
  lemma {:induction false} EveryStateIsGood(states: seq<Ctl>, steps: seq<Step>, i: nat)
    requires IsRun(states, steps) && i < |states|
    ensures AllInv(states[i])
    decreases i, 0
  {
    if i == 0 {
      InitHolds(states[0]);
    } else {
      NextStateIsGood(states, steps, i - 1);
    }
  }
}

/** What runs come to by their stored rows, which is what the program shows: src/store/mod.rs, src/ipc/server.rs,
 *  src/daemon/recover.rs. */
module StoredRuns {
  import opened Wrappers
  import opened Spec
  import opened Model
  import opened Controller
  import opened Ledger
  import opened Dependencies
  import opened Stored
  import opened Recovery
  import opened Progress
  import Dag

  function RowStates(rows: map<JobKey, Row>, run: RunId): set<JobState> {
    set k | k in rows && k.run == run :: rows[k].state
  }

  /** Every row of the run says Succeeded, and there is one. */
  predicate RowsSucceeded(rows: map<JobKey, Row>, run: RunId) {
    RowStates(rows, run) == {JobState.Succeeded}
  }

  lemma RowsSucceededMeans(rows: map<JobKey, Row>, run: RunId)
    ensures RowsSucceeded(rows, run) <==>
            && (exists k :: k in rows && k.run == run)
            && forall k | k in rows && k.run == run :: rows[k].state == JobState.Succeeded
  {
    if RowsSucceeded(rows, run) {
      assert JobState.Succeeded in RowStates(rows, run);
      forall k | k in rows && k.run == run ensures rows[k].state == JobState.Succeeded {
        assert rows[k].state in RowStates(rows, run);
      }
    } else if k :| k in rows && k.run == run {
      assert rows[k].state in RowStates(rows, run);
    }
  }

  /** Every job of the run has its row. */
  predicate AllStored(c: Ctl, run: RunId) {
    run in c.specs && Keys(run, c.specs[run]) <= c.rows.Keys
  }

  // What Succeeded says

  /** A stored skip goes back to a row that failed, was cancelled or was interrupted. */
  lemma {:induction false} RowSkipHasCause(c: Ctl, k: JobKey, order: seq<JobId>, i: nat) returns (cause: JobKey)
    requires RowShapes(c) && (forall j | j in c.rows :: RowInOrder(c, j)) && k in c.rows && c.rows[k].state.Skipped?
    requires Dag.TopoOrder(DepGraph(c.specs[k.run]), order) && i < |order| && order[i] == k.job
    ensures cause in c.rows && cause.run == k.run
    ensures c.rows[cause].state.EndedBadly() && !c.rows[cause].state.Skipped?
    decreases i
  {
    assert RowInOrder(c, k);
    var dep :| dep in c.specs[k.run][k.job].dependsOn && RowEndedBadly(c.rows, JobKey(k.run, dep));
    cause := JobKey(k.run, dep);
    if c.rows[cause].state.Skipped? {
      var g := DepGraph(c.specs[k.run]);
      assert Dag.ComesAfterDeps(g, order, i);
      assert dep in Dag.SetOf(g[order[i]]);
      var j :| 0 <= j < i && order[..i][j] == dep;
      cause := RowSkipHasCause(c, cause, order, j);
    }
  }

  lemma RowSkipShows(c: Ctl, k: JobKey)
    requires RowShapes(c) && (forall j | j in c.rows :: RowInOrder(c, j)) && k in c.rows && c.rows[k].state.Skipped?
    requires GoodWorkflow(c.specs[k.run])
    ensures !(RowStates(c.rows, k.run) <= {JobState.Succeeded, Skipped})
  {
    var order :| Dag.TopoOrder(DepGraph(c.specs[k.run]), order);
    assert k.job in Dag.SetOf(order);
    var i :| 0 <= i < |order| && order[i] == k.job;
    var cause := RowSkipHasCause(c, k, order, i);
    assert c.rows[cause].state in RowStates(c.rows, k.run);
  }

  /** By its rows a run counts as Succeeded exactly when every row of it says so: no skip hides in it. */
  lemma DerivedFromRows(c: Ctl, run: RunId, states: seq<JobState>)
    requires RowsInv(c) && (run in c.specs ==> GoodWorkflow(c.specs[run])) && Lists(states, RowStates(c.rows, run))
    ensures DeriveRunState(states) == RunSucceeded <==> RowsSucceeded(c.rows, run)
  {
    var all := RowStates(c.rows, run);
    DerivedFromStates(states, all);
    if k :| k in c.rows && k.run == run && c.rows[k].state.Skipped? {
      RowSkipShows(c, k);
      assert Skipped in all;
    } else if all != {} && all <= {JobState.Succeeded, Skipped} {
      assert Skipped !in all;
      var state :| state in all;
      assert all == {JobState.Succeeded};
    }
  }

  lemma SucceededRow(c: Ctl, k: JobKey)
    requires RowsInv(c) && RowsSucceeded(c.rows, k.run) && k in c.rows
    ensures c.rows[k].state.Succeeded? && (k in c.jobs ==> k !in c.toWrite && c.jobs[k].state.Succeeded?)
  {
    assert c.rows[k].state in RowStates(c.rows, k.run);
    assert k in c.jobs ==> RowFollows(c, k);
  }

  /** A run that counts as Succeeded by its rows: every job succeeded that has a row, so every job of the run did if and
      only if each has one. */
  lemma StoredSucceededMeansAll(c: Ctl, run: RunId, states: seq<JobState>)
    requires AllInv(c) && run in c.specs && Lists(states, RowStates(c.rows, run)) && DeriveRunState(states) == RunSucceeded
    ensures forall k | k in c.jobs && k.run == run && k in c.rows :: c.jobs[k].state.Succeeded?
    ensures AllStored(c, run) <==> forall id | id in c.specs[run] :: RowIs(c.rows, JobKey(run, id), JobState.Succeeded)
  {
    DerivedFromRows(c, run, states);
    forall k | k in c.rows && k.run == run
      ensures c.rows[k].state.Succeeded? && (k in c.jobs ==> c.jobs[k].state.Succeeded?)
    {
      SucceededRow(c, k);
    }
    if AllStored(c, run) {
      forall id | id in c.specs[run] ensures RowIs(c.rows, JobKey(run, id), JobState.Succeeded) {
        assert JobKey(run, id) in Keys(run, c.specs[run]);
      }
    }
  }

  // Ends that stay

  /** Rows stay, those that ended as they ended, and so do specs. */
  ghost predicate LaterRows(c: Ctl, d: Ctl) {
    && (forall k | k in c.rows && c.rows[k].state.IsTerminal() :: k in d.rows && d.rows[k] == c.rows[k])
    && forall run | run in c.specs :: run in d.specs && d.specs[run] == c.specs[run]
  }

  lemma StepIsLaterInRows(c: Ctl, step: Step, d: Ctl)
    requires Shapes(c) && (forall j | j in c.jobs :: RowFollows(c, j)) && Next(c, step, d)
    ensures LaterRows(c, d)
  {
    forall k | k in c.rows && c.rows[k].state.IsTerminal() ensures k in d.rows && d.rows[k] == c.rows[k] {
      StoredEndsStay(c, step, d, k);
    }
    if !step.Restart? {
      StepKeepsSpecs(c, step, d);
    }
  }

  lemma RunStepIsLaterInRows(states: seq<Ctl>, steps: seq<Step>, i: nat)
    requires IsRun(states, steps) && i < |steps|
    ensures LaterRows(states[i], states[i + 1])
  {
    EveryStateIsGood(states, steps, i);
    StepIsLaterInRows(states[i], steps[i], states[i + 1]);
  }

  ghost predicate LaterRowsAt(states: seq<Ctl>, n: nat)
    requires n + 1 < |states|
  {
    LaterRows(states[n], states[n + 1])
  }

  lemma {:induction false} LaterInRows(states: seq<Ctl>, i: nat, j: nat)
    requires i <= j < |states| && forall n | 0 <= n < |states| - 1 :: LaterRowsAt(states, n)
    ensures LaterRows(states[i], states[j])
    decreases j - i
  {
    if i < j {
      LaterInRows(states, i, j - 1);
      assert LaterRowsAt(states, j - 1);
      LaterRowsTwice(states[i], states[j - 1], states[j]);
    }
  }

  lemma RunIsLaterInRows(states: seq<Ctl>, steps: seq<Step>, i: nat, j: nat)
    requires IsRun(states, steps) && i <= j < |states|
    ensures LaterRows(states[i], states[j])
  {
    forall n | 0 <= n < |states| - 1 ensures LaterRowsAt(states, n) {
      RunStepIsLaterInRows(states, steps, n);
    }
    LaterInRows(states, i, j);
  }

  lemma LaterRowsTwice(c: Ctl, d: Ctl, e: Ctl)
    requires LaterRows(c, d) && LaterRows(d, e)
    ensures LaterRows(c, e)
  {
  }

  lemma StoredEndsOf(c: Ctl, d: Ctl, run: RunId, before: seq<JobState>, after: seq<JobState>)
    requires RowShapes(d) && LaterRows(c, d) && RowStates(c.rows, run) != {}
    requires Lists(before, RowStates(c.rows, run)) && Lists(after, RowStates(d.rows, run))
    ensures DeriveRunState(before) == RunFailed ==> DeriveRunState(after) == RunFailed
    ensures DeriveRunState(before) == RunCancelled ==> DeriveRunState(after) in {RunCancelled, RunFailed}
    ensures DeriveRunState(before) == RunSucceeded && AllStored(c, run) ==> DeriveRunState(after) == RunSucceeded
  {
    forall state | state in RowStates(c.rows, run) && state.IsTerminal() ensures state in RowStates(d.rows, run) {
      var k :| k in c.rows && k.run == run && c.rows[k].state == state;
      assert d.rows[k] == c.rows[k];
    }
    BadEndsStay(RowStates(c.rows, run), RowStates(d.rows, run), before, after);
    DerivedFromStates(before, RowStates(c.rows, run));
    DerivedFromStates(after, RowStates(d.rows, run));
    if DeriveRunState(before) == RunSucceeded && AllStored(c, run) {
      forall k | k in d.rows && k.run == run ensures d.rows[k].state in {JobState.Succeeded, Skipped} {
        assert k == JobKey(run, k.job) && k in Keys(run, c.specs[run]);
        assert c.rows[k].state in RowStates(c.rows, run);
      }
      var state :| state in RowStates(c.rows, run);
    }
  }

  /** A run's state by its rows, over any number of crashes: Failed is final, Cancelled can only become Failed, and Succeeded
      is final once every job of the run has a row. */
  lemma StoredRunEndsStay(states: seq<Ctl>, steps: seq<Step>, i: nat, j: nat, run: RunId, before: seq<JobState>,
                          after: seq<JobState>)
    requires IsRun(states, steps) && i <= j < |states| && RowStates(states[i].rows, run) != {}
    requires Lists(before, RowStates(states[i].rows, run)) && Lists(after, RowStates(states[j].rows, run))
    ensures DeriveRunState(before) == RunFailed ==> DeriveRunState(after) == RunFailed
    ensures DeriveRunState(before) == RunCancelled ==> DeriveRunState(after) in {RunCancelled, RunFailed}
    ensures DeriveRunState(before) == RunSucceeded && AllStored(states[i], run) ==> DeriveRunState(after) == RunSucceeded
  {
    EveryStateIsGood(states, steps, j);
    RunIsLaterInRows(states, steps, i, j);
    StoredEndsOf(states[i], states[j], run, before, after);
  }

  // Succeeded, until a job without a row is written

  /** The first write of a job that has no row and has not succeeded. */
  predicate Reopens(c: Ctl, step: Step, run: RunId) {
    && step.Flush? && step.key.run == run && step.key in c.jobs && step.key !in c.rows
    && !c.jobs[step.key].state.Succeeded?
  }

  lemma SomeRow(rows: map<JobKey, Row>, run: RunId) returns (k: JobKey)
    requires RowsSucceeded(rows, run)
    ensures k in rows && k.run == run && rows[k].state.Succeeded?
  {
    assert JobState.Succeeded in RowStates(rows, run);
    k :| k in rows && k.run == run && rows[k].state == JobState.Succeeded;
  }

  lemma SameRowStates(rows: map<JobKey, Row>, now: map<JobKey, Row>, run: RunId)
    requires forall k: JobKey | k.run == run :: (k in now <==> k in rows) && (k in rows ==> now[k] == rows[k])
    ensures RowStates(now, run) == RowStates(rows, run)
  {
    forall k | k in rows && k.run == run ensures rows[k].state in RowStates(now, run) {
      assert now[k] == rows[k];
    }
    forall k | k in now && k.run == run ensures now[k].state in RowStates(rows, run) {
      assert now[k] == rows[k];
    }
  }

  /** A run whose jobs are still being stored has only Pending rows. */
  lemma SubmittingIsPending(c: Ctl, run: RunId)
    requires Shapes(c) && RowsInv(c) && RowsSucceeded(c.rows, run)
    ensures run !in c.submitting
  {
    var k := SomeRow(c.rows, run);
    assert RowElsewhere(c, k);
  }

  lemma WriteReopens(c: Ctl, k: JobKey, run: RunId)
    requires RowsInv(c) && RowsSucceeded(c.rows, run) && k in c.toWrite
    ensures RowsSucceeded(Written(c, k).rows, run) <==> !Reopens(c, Flush(k), run)
  {
    if k.run == run && k in c.jobs {
      if k in c.rows {
        SucceededRow(c, k);
        assert false;
      }
      var now := Written(c, k).rows;
      assert now[k].state == c.jobs[k].state;
      assert now[k].state in RowStates(now, run);
      assert RowStates(now, run) == RowStates(c.rows, run) + {now[k].state};
    } else {
      SameRowStates(c.rows, Written(c, k).rows, run);
    }
  }

  lemma ClientLeavesRows(c: Ctl, step: ClientStep, d: Ctl, run: RunId)
    requires run !in c.submitting && ClientNext(c, step, d)
    ensures forall k: JobKey | k.run == run :: (k in d.rows <==> k in c.rows) && (k in c.rows ==> d.rows[k] == c.rows[k])
  {
  }

  lemma StepLeavesRows(c: Ctl, step: Step, d: Ctl, run: RunId)
    requires Shapes(c) && Next(c, step, d) && run !in c.submitting && !step.Flush?
    requires forall k | k in c.rows && k.run == run :: c.rows[k].state.IsTerminal()
    ensures forall k: JobKey | k.run == run :: (k in d.rows <==> k in c.rows) && (k in c.rows ==> d.rows[k] == c.rows[k])
  {
    match step
    case Client(s) => ClientLeavesRows(c, s, d, run);
    case Admit(s) => AdmitFrame(c, s, d);
    case Poll(s) => PollFrame(c, s, d);
    case Cards(s) => CardFrame(c, s, d);
    case Restart(_, _) =>
  }

  /** Any step, a restart too, leaves a run Succeeded by its rows, except for the first write of a job that has no row and
      has not succeeded. */
  lemma StaysSucceededUnlessReopened(c: Ctl, step: Step, d: Ctl, run: RunId)
    requires AllInv(c) && Next(c, step, d) && RowsSucceeded(c.rows, run)
    ensures RowsSucceeded(d.rows, run) <==> !Reopens(c, step, run)
  {
    if step.Flush? {
      WriteReopens(c, step.key, run);
    } else {
      SubmittingIsPending(c, run);
      forall k | k in c.rows && k.run == run ensures c.rows[k].state.IsTerminal() {
        SucceededRow(c, k);
      }
      StepLeavesRows(c, step, d, run);
      SameRowStates(c.rows, d.rows, run);
    }
  }

  ghost predicate SucceededAt(states: seq<Ctl>, n: int, run: RunId)
    requires 0 <= n < |states|
  {
    RowsSucceeded(states[n].rows, run)
  }

  ghost predicate ReopenedAt(states: seq<Ctl>, steps: seq<Step>, n: int, run: RunId)
    requires 0 <= n < |steps| < |states|
  {
    Reopens(states[n], steps[n], run)
  }

  lemma SucceededOnceMore(states: seq<Ctl>, steps: seq<Step>, n: nat, run: RunId)
    requires IsRun(states, steps) && n < |steps| && SucceededAt(states, n, run)
    ensures SucceededAt(states, n + 1, run) <==> !ReopenedAt(states, steps, n, run)
  {
    EveryStateIsGood(states, steps, n);
    StaysSucceededUnlessReopened(states[n], steps[n], states[n + 1], run);
  }

  /** What a step keeps, unless it is of a certain kind, holds all along exactly when no step is of that kind. */
  lemma {:induction false} HoldsUnless(holds: seq<bool>, breaks: seq<bool>, i: nat, j: nat)
    requires i <= j < |holds| <= |breaks| + 1 && holds[i]
    requires forall n | i <= n < j && holds[n] :: holds[n + 1] <==> !breaks[n]
    ensures (forall n | i <= n <= j :: holds[n]) <==> (forall n | i <= n < j :: !breaks[n])
    decreases j - i
  {
    if i < j {
      HoldsUnless(holds, breaks, i, j - 1);
      if forall n | i <= n < j :: !breaks[n] {
        assert holds[j - 1] && !breaks[j - 1];
      } else {
        var n :| i <= n < j && breaks[n];
        assert !holds[n] || !holds[n + 1];
      }
    }
  }

  /** Over a stretch of a run, crashes included, Succeeded stays if and only if no job is first written late. */
  lemma SucceededStaysIff(states: seq<Ctl>, steps: seq<Step>, i: nat, j: nat, run: RunId)
    requires IsRun(states, steps) && i <= j < |states| && SucceededAt(states, i, run)
    ensures (forall n | i <= n <= j :: SucceededAt(states, n, run)) <==>
            (forall n | i <= n < j :: !ReopenedAt(states, steps, n, run))
  {
    var holds := seq(|states|, n requires 0 <= n < |states| => RowsSucceeded(states[n].rows, run));
    var breaks := seq(|steps|, n requires 0 <= n < |steps| < |states| => Reopens(states[n], steps[n], run));
    forall n | i <= n < j && holds[n] ensures holds[n + 1] <==> !breaks[n] {
      SucceededOnceMore(states, steps, n, run);
    }
    HoldsUnless(holds, breaks, i, j);
    assert forall n | i <= n <= j :: holds[n] <==> SucceededAt(states, n, run);
    assert forall n | i <= n < j :: breaks[n] <==> ReopenedAt(states, steps, n, run);
  }

  // Jobs lost for good

  /** All the run's rows have ended and none of its jobs is in memory. */
  ghost predicate Dropped(c: Ctl, run: RunId) {
    && run in c.specs && run !in c.submitting && (forall k | k in c.jobs :: k.run != run)
    && forall k | k in c.rows && k.run == run :: c.rows[k].state.IsTerminal()
  }

  lemma UnfinishedIsRestored(c: Ctl, found: set<JobKey>, k: JobKey)
    requires RowShapes(c) && k in c.rows && !c.rows[k].state.IsTerminal()
    ensures k in RestoredJobs(c, found)
  {
    assert k == JobKey(k.run, k.job) && k in AllKeys(c.specs) && k.run in Unfinished(c.rows);
  }

  /** A restart drops a run exactly when all its rows have ended: a job of it that has no row is gone with it. */
  lemma RestartDropsIff(c: Ctl, found: set<JobKey>, order: seq<JobKey>, d: Ctl, run: RunId)
    requires RowShapes(c) && Next(c, Restart(found, order), d) && run in c.specs
    ensures Dropped(d, run) <==> forall k | k in c.rows && k.run == run :: c.rows[k].state.IsTerminal()
    ensures Dropped(d, run) ==> RowStates(d.rows, run) == RowStates(c.rows, run)
  {
    if k :| k in c.rows && k.run == run && !c.rows[k].state.IsTerminal() {
      UnfinishedIsRestored(c, found, k);
    } else {
      SameRowStates(c.rows, d.rows, run);
    }
  }

  lemma ClientStaysDropped(c: Ctl, step: ClientStep, d: Ctl, run: RunId)
    requires Shapes(c) && ClientNext(c, step, d) && Dropped(c, run)
    ensures Dropped(d, run)
  {
    ClientLeavesRows(c, step, d, run);
    match step
    case SubmitInsert(other) => SubmittedJobs(c, other);
    case _ =>
  }

  lemma RestartStaysDropped(c: Ctl, found: set<JobKey>, order: seq<JobKey>, d: Ctl, run: RunId)
    requires Next(c, Restart(found, order), d) && Dropped(c, run)
    ensures Dropped(d, run)
  {
  }

  lemma DroppedStays(c: Ctl, step: Step, d: Ctl, run: RunId)
    requires Shapes(c) && Next(c, step, d) && Dropped(c, run)
    ensures Dropped(d, run)
    ensures forall k: JobKey | k.run == run :: (k in d.rows <==> k in c.rows) && (k in c.rows ==> d.rows[k] == c.rows[k])
  {
    if !step.Flush? {
      StepLeavesRows(c, step, d, run);
    }
    match step
    case Client(s) => ClientStaysDropped(c, s, d, run);
    case Admit(s) => AdmitFrame(c, s, d);
    case Poll(s) => PollFrame(c, s, d);
    case Cards(s) => CardFrame(c, s, d);
    case Flush(_) =>
    case Restart(found, order) => RestartStaysDropped(c, found, order, d, run);
  }

  /** Dropped stays dropped, with the rows as they are. */
  ghost predicate KeptDropped(c: Ctl, d: Ctl, run: RunId) {
    Dropped(c, run) ==> Dropped(d, run) && RowStates(d.rows, run) == RowStates(c.rows, run)
  }

  ghost predicate KeptDroppedAt(states: seq<Ctl>, n: nat, run: RunId)
    requires n + 1 < |states|
  {
    KeptDropped(states[n], states[n + 1], run)
  }

  lemma KeptDroppedTwice(c: Ctl, d: Ctl, e: Ctl, run: RunId)
    requires KeptDropped(c, d, run) && KeptDropped(d, e, run)
    ensures KeptDropped(c, e, run)
  {
  }

  lemma RunKeepsDropped(states: seq<Ctl>, steps: seq<Step>, n: nat, run: RunId)
    requires IsRun(states, steps) && n < |steps|
    ensures KeptDroppedAt(states, n, run)
  {
    if Dropped(states[n], run) {
      EveryStateIsGood(states, steps, n);
      DroppedStays(states[n], steps[n], states[n + 1], run);
      SameRowStates(states[n].rows, states[n + 1].rows, run);
    }
  }

  lemma {:induction false} KeptDroppedAlong(states: seq<Ctl>, i: nat, j: nat, run: RunId)
    requires i <= j < |states| && forall n | 0 <= n < |states| - 1 :: KeptDroppedAt(states, n, run)
    ensures KeptDropped(states[i], states[j], run)
    decreases j - i
  {
    if i < j {
      KeptDroppedAlong(states, i, j - 1, run);
      assert KeptDroppedAt(states, j - 1, run);
      KeptDroppedTwice(states[i], states[j - 1], states[j], run);
    }
  }

  /** From then on, over any number of crashes, none of its jobs ever comes back and its rows stay as they are: a run that
      reads Succeeded reads so for ever, whatever jobs of it never ran. */
  lemma LostForGood(states: seq<Ctl>, steps: seq<Step>, i: nat, j: nat, run: RunId)
    requires IsRun(states, steps) && i <= j < |states| && Dropped(states[i], run)
    ensures Dropped(states[j], run) && RowStates(states[j].rows, run) == RowStates(states[i].rows, run)
  {
    forall n | 0 <= n < |states| - 1 ensures KeptDroppedAt(states, n, run) {
      RunKeepsDropped(states, steps, n, run);
    }
    KeptDroppedAlong(states, i, j, run);
  }
}

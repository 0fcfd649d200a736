/** The stored rows in every reachable state, that is after every prefix of the scheduler's writes:
 *  src/scheduler/mod.rs (flush_transitions), src/store/mod.rs. */
module Stored {
  import opened Wrappers
  import opened Spec
  import opened Pool
  import opened Placement
  import opened Model
  import opened Controller
  import opened Ledger
  import opened Dependencies

  predicate RowIs(rows: map<JobKey, Row>, k: JobKey, state: JobState) {
    k in rows && rows[k].state == state
  }

  predicate RowEndedBadly(rows: map<JobKey, Row>, k: JobKey) {
    k in rows && rows[k].state.EndedBadly()
  }

  predicate RowDepsSucceeded(c: Ctl, k: JobKey)
    requires k.run in c.specs && k.job in c.specs[k.run]
  {
    forall dep | dep in c.specs[k.run][k.job].dependsOn :: RowIs(c.rows, JobKey(k.run, dep), Succeeded)
  }

  predicate RowSomeDepBad(c: Ctl, k: JobKey)
    requires k.run in c.specs && k.job in c.specs[k.run]
  {
    exists dep | dep in c.specs[k.run][k.job].dependsOn :: RowEndedBadly(c.rows, JobKey(k.run, dep))
  }

  /** Rows belong to stored specs, and name a node and an allocation exactly while the job runs. */
  ghost predicate RowShapes(c: Ctl) {
    forall k | k in c.rows ::
      && k.run in c.specs && k.job in c.specs[k.run]
      && (c.rows[k].held.Some? <==> c.rows[k].state.Running?)
      && !c.rows[k].state.TimedOut?
  }

  /** A job's row says what the job is, or the scheduler is about to write it and the row still says what the job was. */
  ghost predicate RowFollows(c: Ctl, k: JobKey)
    requires k in c.jobs
  {
    if k in c.toWrite then
      k in c.rows ==>
        && !c.rows[k].state.IsTerminal()
        && (c.rows[k].state.Running? ==> k in c.released && c.rows[k].held == Some(c.released[k]))
    else if k in c.rows then c.rows[k] == RowOf(c.jobs[k])
    else c.jobs[k].state.Pending?
  }

  /** A row without a job is of a run that ended before a restart, or that is being submitted. */
  ghost predicate RowElsewhere(c: Ctl, k: JobKey)
    requires k in c.rows
  {
    k in c.jobs || if k.run in c.submitting then c.rows[k] == Row(Pending, None) else c.rows[k].state.IsTerminal()
  }

  ghost predicate RowInOrder(c: Ctl, k: JobKey)
    requires k in c.rows && k.run in c.specs && k.job in c.specs[k.run]
  {
    && (c.rows[k].state.Admitted() ==> RowDepsSucceeded(c, k))
    && (c.rows[k].state.Skipped? ==> RowSomeDepBad(c, k))
  }

  /** What an admitted or skipped job rests on is already stored. */
  ghost predicate DepsStored(c: Ctl, k: JobKey)
    requires k in c.jobs
  {
    && (c.jobs[k].state.Admitted() ==>
          forall dep | dep in c.jobs[k].spec.dependsOn :: JobKey(k.run, dep) !in c.toWrite)
    && (c.jobs[k].state.Skipped? ==>
          exists dep | dep in c.jobs[k].spec.dependsOn ::
            HasEndedBadly(c.jobs, JobKey(k.run, dep)) && JobKey(k.run, dep) !in c.toWrite)
  }

  ghost predicate InFlightStored(c: Ctl) {
    && (forall k | k in c.tasks :: k !in c.toWrite)
    && (forall k | k in c.polls :: k !in c.toWrite)
  }

  ghost predicate RowsInv(c: Ctl) {
    && RowShapes(c)
    && (forall k | k in c.jobs :: RowFollows(c, k))
    && (forall k | k in c.rows :: RowElsewhere(c, k))
    && (forall k | k in c.rows :: RowInOrder(c, k))
    && (forall k | k in c.jobs :: DepsStored(c, k))
    && InFlightStored(c)
  }

  // What steps that write no row do

  /** A job that changed what its row should say is about to be written, and had not ended. */
  ghost predicate ChangesAreListed(c: Ctl, d: Ctl) {
    && c.toWrite <= d.toWrite
    && (forall k | k in c.jobs && k in d.jobs && RowOf(d.jobs[k]) != RowOf(c.jobs[k]) :: k in d.toWrite)
    && (forall k | k in d.toWrite && k !in c.toWrite :: k in c.jobs && !c.jobs[k].state.IsTerminal())
    && (forall k | k in c.jobs && k in d.jobs && c.jobs[k].state.Pending? && !d.jobs[k].state.Pending? :: c.toWrite == {})
  }

  /** What a job held when it ended is remembered until its row is written. */
  ghost predicate ReleasesRemembered(c: Ctl, d: Ctl) {
    && (forall k | k in c.released :: k in d.released && d.released[k] == c.released[k])
    && (forall k | k in d.toWrite && k !in c.toWrite && k in c.jobs && c.jobs[k].executions != [] ::
          k in d.released && d.released[k] == c.jobs[k].executions[0])
  }

  ghost predicate InsertsStored(c: Ctl, d: Ctl) {
    && (forall k | k in d.jobs && k !in c.jobs ::
        k in c.rows && k.run in c.submitting && d.jobs[k].state.Pending? && d.jobs[k].executions == [])
    && (forall k | k in c.rows && k.run in c.submitting && k.run !in d.submitting :: k in d.jobs)
    && (forall run | run in d.submitting && run !in c.submitting :: run !in c.specs)
    && (forall run | run in c.specs :: run in d.specs && d.specs[run] == c.specs[run])
  }

  ghost predicate QuietStep(c: Ctl, d: Ctl) {
    && d.rows == c.rows
    && Moves(c.jobs, d.jobs) && ChangesAreListed(c, d) && ReleasesRemembered(c, d) && InsertsStored(c, d)
  }

  lemma FollowsKept(c: Ctl, d: Ctl, k: JobKey)
    requires Shapes(c) && RowsInv(c) && QuietStep(c, d) && k in d.jobs
    ensures RowFollows(d, k)
  {
    if k in c.jobs {
      assert RowFollows(c, k);
      assert |c.jobs[k].executions| == (if c.jobs[k].state.Running? then 1 else 0);
    } else {
      assert RowElsewhere(c, k);
    }
  }

  lemma ElsewhereKept(c: Ctl, d: Ctl, k: JobKey)
    requires RowsInv(c) && QuietStep(c, d) && k in d.rows
    ensures RowElsewhere(d, k)
  {
    assert RowElsewhere(c, k);
  }

  lemma RowOrderKept(c: Ctl, d: Ctl, k: JobKey)
    requires RowsInv(c) && QuietStep(c, d) && k in d.rows
    ensures k.run in d.specs && k.job in d.specs[k.run] && RowInOrder(d, k)
  {
    assert RowInOrder(c, k);
  }

  lemma DepsStoredKept(c: Ctl, d: Ctl, k: JobKey)
    requires AllInOrder(c.jobs) && RowsInv(c) && QuietStep(c, d) && k in d.jobs
    ensures DepsStored(d, k)
  {
    assert LegalMove(c.jobs, k, d.jobs[k]);
    if k in c.jobs && !d.jobs[k].state.Pending? {
      assert InOrder(c.jobs, k) && DepsStored(c, k);
      if d.jobs[k].state.Admitted() {
        forall dep | dep in d.jobs[k].spec.dependsOn ensures JobKey(k.run, dep) !in d.toWrite {
          assert HasSucceeded(c.jobs, JobKey(k.run, dep));
        }
      } else {
        SkipStays(c, d, k);
      }
    }
  }

  lemma SkipStays(c: Ctl, d: Ctl, k: JobKey)
    requires RowsInv(c) && QuietStep(c, d) && k in c.jobs && k in d.jobs && d.jobs[k].state.Skipped?
    ensures DepsStored(d, k)
  {
    assert LegalMove(c.jobs, k, d.jobs[k]) && DepsStored(c, k);
    var dep :| dep in c.jobs[k].spec.dependsOn && HasEndedBadly(c.jobs, JobKey(k.run, dep))
        && JobKey(k.run, dep) !in c.toWrite;
    EndedStays(c.jobs, d.jobs, JobKey(k.run, dep));
    assert HasEndedBadly(d.jobs, JobKey(k.run, dep));
  }

  lemma RowsKept(c: Ctl, d: Ctl)
    requires Shapes(c) && AllInOrder(c.jobs) && RowsInv(c) && QuietStep(c, d) && InFlightStored(d)
    ensures RowsInv(d)
  {
    forall k | k in d.jobs ensures RowFollows(d, k) && DepsStored(d, k) {
      FollowsKept(c, d, k);
      DepsStoredKept(c, d, k);
    }
    forall k | k in d.rows ensures k.run in d.specs && k.job in d.specs[k.run] && RowElsewhere(d, k) && RowInOrder(d, k) {
      RowOrderKept(c, d, k);
      ElsewhereKept(c, d, k);
    }
  }

  // Which steps are quiet

  lemma NothingChanged(c: Ctl, d: Ctl)
    requires d.jobs == c.jobs && d.toWrite == c.toWrite && d.released == c.released
    requires d.rows == c.rows && d.specs == c.specs && d.submitting == c.submitting
    ensures QuietStep(c, d)
  {
  }

  lemma InsertedQuiet(c: Ctl, run: RunId, d: Ctl)
    requires Shapes(c) && RowsInv(c) && run in c.submitting && run in c.specs && Keys(run, c.specs[run]) <= c.rows.Keys
    requires d == c.(jobs := Submitted(c, run), submitting := c.submitting - {run})
    ensures QuietStep(c, d)
  {
    ClientMoves(c, SubmitInsert(run), d);
    SubmittedJobs(c, run);
    assert InsertsStored(c, d) by { InsertedStored(c, run, d); }
  }

  lemma InsertedStored(c: Ctl, run: RunId, d: Ctl)
    requires Shapes(c) && RowsInv(c) && run in c.submitting && run in c.specs && Keys(run, c.specs[run]) <= c.rows.Keys
    requires d == c.(jobs := Submitted(c, run), submitting := c.submitting - {run})
    ensures InsertsStored(c, d)
  {
    SubmittedJobs(c, run);
    forall k | k in c.rows && k.run == run ensures k in d.jobs {
      assert k == JobKey(run, k.job);
    }
  }

  lemma ClientQuiet(c: Ctl, step: ClientStep, d: Ctl)
    requires Shapes(c) && RowsInv(c) && ClientNext(c, step, d) && !step.SubmitRow?
    ensures QuietStep(c, d)
  {
    match step
    case SubmitInsert(run) => InsertedQuiet(c, run, d);
    case CancelRun(run) => CancelledQuiet(c, run, d);
    case SubmitAccept(_, _) => ClientMoves(c, step, d);
  }

  lemma CancelledQuiet(c: Ctl, run: RunId, d: Ctl)
    requires Shapes(c) && RowsInv(c) && d == c.(jobs := Cancelling(c.jobs, run))
    ensures QuietStep(c, d)
  {
    ClientMoves(c, CancelRun(run), d);
  }

  lemma AdvancedQuiet(c: Ctl)
    requires Flushed(c)
    requires Shapes(c)
    ensures QuietStep(c, Advanced(c))
  {
    AdvancedMoves(c);
  }

  lemma CascadedQuiet(c: Ctl)
    requires Flushed(c) && Shapes(c) && AllInOrder(c.jobs)
    ensures QuietStep(c, Cascaded(c))
  {
    CascadedMoves(c);
  }

  lemma StartedQuiet(c: Ctl, k: JobKey)
    requires Shapes(c) && k in c.tasks && c.tasks[k].result == Some(Launched) && FreshNodes(c)
    ensures QuietStep(c, Started(c, k))
  {
    LaunchAppliedMoves(c, k);
  }

  lemma GivenBackQuiet(c: Ctl, k: JobKey, job: Option<JobInstance>)
    requires Shapes(c) && k in c.tasks && (job.Some? ==> LegalMove(c.jobs, k, job.value))
    ensures QuietStep(c, GivenBack(c, k, job))
  {
    if job.Some? {
      OneMoves(c.jobs, k, job.value);
    } else {
      UnchangedMoves(c.jobs);
    }
  }

  lemma AdmitQuiet(c: Ctl, step: AdmitStep, d: Ctl)
    requires Shapes(c) && AllInOrder(c.jobs) && FreshNodes(c) && AdmitNext(c, step, d)
    ensures QuietStep(c, d)
  {
    match step
    case AdvancePending => AdvancedQuiet(c);
    case CascadeSkipped => CascadedQuiet(c);
    case ApplyLaunch(k) =>
      if c.tasks[k].result == Some(Launched) {
        StartedQuiet(c, k);
      } else {
        NotStartedMove(c, k);
        GivenBackQuiet(c, k, NotStarted(c.pools, c.jobs[k], c.tasks[k]));
      }
    case _ => NothingChanged(c, d);
  }

  lemma FinishedListed(c: Ctl, k: JobKey, job: JobInstance)
    requires Shapes(c) && k in c.jobs && c.jobs[k].state.Running?
    ensures ChangesAreListed(c, Finished(c, k, job)) && InsertsStored(c, Finished(c, k, job))
  {
  }

  lemma FinishedRemembered(c: Ctl, k: JobKey, job: JobInstance)
    requires Phases(c) && k in c.jobs && k !in c.toWrite
    ensures ReleasesRemembered(c, Finished(c, k, job))
  {
  }

  lemma FinishedQuiet(c: Ctl, k: JobKey, job: JobInstance)
    requires Shapes(c) && Phases(c) && InFlightStored(c) && k in c.polls && LegalMove(c.jobs, k, job)
    ensures QuietStep(c, Finished(c, k, job))
  {
    assert c.jobs[k].state.Running?;
    OneMoves(c.jobs, k, job);
    FinishedListed(c, k, job);
    FinishedRemembered(c, k, job);
  }

  lemma PollQuiet(c: Ctl, step: PollStep, d: Ctl)
    requires Shapes(c) && Phases(c) && InFlightStored(c) && PollNext(c, step, d)
    ensures QuietStep(c, d)
  {
    match step
    case ApplyPoll(k) =>
      if Over(c.polls[k].reply.value) {
        FinishedQuiet(c, k, Ended(c.jobs[k], c.polls[k]));
      } else {
        NothingChanged(c, d);
      }
    case _ => NothingChanged(c, d);
  }

  lemma LaunchAppliedInFlight(c: Ctl, k: JobKey)
    requires Phases(c) && InFlightStored(c) && c.phase.ApplyingLaunches? && k in c.tasks
    ensures InFlightStored(LaunchApplied(c, k))
  {
    assert c.polls == map[];
    var d := LaunchApplied(c, k);
    assert d.tasks == c.tasks - {k} && d.polls == c.polls && d.toWrite <= c.toWrite + {k};
  }

  lemma AdmitInFlight(c: Ctl, step: AdmitStep, d: Ctl)
    requires Shapes(c) && Phases(c) && InFlightStored(c) && AdmitNext(c, step, d)
    ensures InFlightStored(d)
  {
    match step
    case ApplyLaunch(k) => LaunchAppliedInFlight(c, k);
    case _ =>
  }

  lemma PollInFlight(c: Ctl, step: PollStep, d: Ctl)
    requires Shapes(c) && Phases(c) && InFlightStored(c) && PollNext(c, step, d)
    ensures InFlightStored(d)
  {
  }

  // The two steps that write a row

  lemma SubmittedRowKept(c: Ctl, k: JobKey, d: Ctl)
    requires Shapes(c) && RowsInv(c) && ClientNext(c, SubmitRow(k), d)
    ensures RowsInv(d)
  {
    forall j | j in d.jobs ensures RowFollows(d, j) && DepsStored(d, j) {
      assert RowFollows(c, j) && DepsStored(c, j);
    }
    forall j | j in d.rows ensures RowElsewhere(d, j) && RowInOrder(d, j) {
      if j in c.rows {
        assert RowElsewhere(c, j) && RowInOrder(c, j);
        RowOrderGrows(c, d, j);
      }
    }
  }

  /** More rows don't spoil the order of the ones there are. */
  lemma RowOrderGrows(c: Ctl, d: Ctl, j: JobKey)
    requires RowsInv(c) && j in c.rows && RowInOrder(c, j) && d.specs == c.specs
    requires c.rows.Keys <= d.rows.Keys
    requires forall i | i in c.rows && c.rows[i].state.IsTerminal() :: d.rows[i] == c.rows[i]
    requires d.rows[j] == c.rows[j]
    ensures RowInOrder(d, j)
  {
    if c.rows[j].state.Skipped? {
      var dep :| dep in c.specs[j.run][j.job].dependsOn && RowEndedBadly(c.rows, JobKey(j.run, dep));
      assert RowEndedBadly(d.rows, JobKey(j.run, dep));
    }
    if c.rows[j].state.Admitted() {
      forall dep | dep in c.specs[j.run][j.job].dependsOn ensures RowIs(d.rows, JobKey(j.run, dep), Succeeded) {
        assert RowIs(c.rows, JobKey(j.run, dep), Succeeded);
      }
    }
  }

  /** The row being written rests on rows already written. */
  lemma WrittenAdmitted(c: Ctl, k: JobKey)
    requires RowsInv(c) && k in c.jobs && InOrder(c.jobs, k) && c.jobs[k].state.Admitted()
    requires k.run in c.specs && k.job in c.specs[k.run] && c.jobs[k].spec == c.specs[k.run][k.job]
    ensures RowDepsSucceeded(Written(c, k), k)
  {
    var d := Written(c, k);
    assert DepsStored(c, k);
    forall dep | dep in c.jobs[k].spec.dependsOn ensures RowIs(d.rows, JobKey(k.run, dep), Succeeded) {
      assert HasSucceeded(c.jobs, JobKey(k.run, dep));
      assert RowFollows(c, JobKey(k.run, dep));
    }
  }

  lemma WrittenSkipped(c: Ctl, k: JobKey)
    requires RowsInv(c) && k in c.jobs && c.jobs[k].state.Skipped?
    requires k.run in c.specs && k.job in c.specs[k.run] && c.jobs[k].spec == c.specs[k.run][k.job]
    ensures RowSomeDepBad(Written(c, k), k)
  {
    var d := Written(c, k);
    assert DepsStored(c, k);
    var dep :| dep in c.jobs[k].spec.dependsOn && HasEndedBadly(c.jobs, JobKey(k.run, dep))
        && JobKey(k.run, dep) !in c.toWrite;
    assert RowFollows(c, JobKey(k.run, dep));
    assert RowEndedBadly(d.rows, JobKey(k.run, dep));
  }

  lemma WrittenInOrder(c: Ctl, k: JobKey)
    requires WholeRuns(c) && AllInOrder(c.jobs) && RowsInv(c) && k in c.jobs
    ensures RowInOrder(Written(c, k), k)
  {
    assert InOrder(c.jobs, k);
    if c.jobs[k].state.Admitted() {
      WrittenAdmitted(c, k);
    }
    if c.jobs[k].state.Skipped? {
      WrittenSkipped(c, k);
    }
  }

  lemma WrittenOthers(c: Ctl, k: JobKey, j: JobKey)
    requires RowsInv(c) && k in c.jobs && k in c.toWrite && j in c.rows && j != k
    ensures RowElsewhere(Written(c, k), j)
    ensures j.run in c.specs && j.job in c.specs[j.run] && RowInOrder(Written(c, k), j)
  {
    assert RowElsewhere(c, j) && RowInOrder(c, j) && RowFollows(c, k);
    RowOrderGrows(c, Written(c, k), j);
  }

  lemma WrittenJobs(c: Ctl, k: JobKey, j: JobKey)
    requires RowsInv(c) && Phases(c) && k in c.jobs && j in c.jobs
    ensures RowFollows(Written(c, k), j) && DepsStored(Written(c, k), j)
  {
    assert RowFollows(c, j) && DepsStored(c, j);
    WrittenDepsStored(c, k, j);
  }

  lemma WrittenRowShapes(c: Ctl, k: JobKey)
    requires RowShapes(c) && Shapes(c) && WholeRuns(c) && k in c.jobs
    ensures RowShapes(Written(c, k))
  {
  }

  lemma WrittenKept(c: Ctl, k: JobKey)
    requires Shapes(c) && Phases(c) && WholeRuns(c) && AllInOrder(c.jobs) && RowsInv(c) && k in c.toWrite
    ensures RowsInv(Written(c, k))
  {
    var d := Written(c, k);
    WrittenRowShapes(c, k);
    forall j | j in d.jobs ensures RowFollows(d, j) && DepsStored(d, j) {
      WrittenJobs(c, k, j);
    }
    forall j | j in d.rows ensures RowElsewhere(d, j) && RowInOrder(d, j) {
      if j == k {
        WrittenInOrder(c, k);
      } else {
        WrittenOthers(c, k, j);
      }
    }
  }

  lemma WrittenDepsStored(c: Ctl, k: JobKey, j: JobKey)
    requires j in c.jobs && DepsStored(c, j)
    ensures DepsStored(Written(c, k), j)
  {
    if c.jobs[j].state.Skipped? {
      var dep :| dep in c.jobs[j].spec.dependsOn && HasEndedBadly(c.jobs, JobKey(j.run, dep))
          && JobKey(j.run, dep) !in c.toWrite;
    }
  }

  lemma ClientStored(c: Ctl, step: ClientStep, d: Ctl)
    requires Shapes(c) && AllInOrder(c.jobs) && RowsInv(c) && ClientNext(c, step, d)
    ensures RowsInv(d)
  {
    if step.SubmitRow? {
      SubmittedRowKept(c, step.key, d);
    } else {
      ClientQuiet(c, step, d);
      ClientFrame(c, step, d);
      RowsKept(c, d);
    }
  }

  lemma AdmitStored(c: Ctl, step: AdmitStep, d: Ctl)
    requires Shapes(c) && Phases(c) && AllInOrder(c.jobs) && FreshNodes(c) && RowsInv(c) && AdmitNext(c, step, d)
    ensures RowsInv(d)
  {
    AdmitQuiet(c, step, d);
    AdmitInFlight(c, step, d);
    RowsKept(c, d);
  }

  lemma PollStored(c: Ctl, step: PollStep, d: Ctl)
    requires Shapes(c) && Phases(c) && AllInOrder(c.jobs) && RowsInv(c) && PollNext(c, step, d)
    ensures RowsInv(d)
  {
    PollQuiet(c, step, d);
    PollInFlight(c, step, d);
    RowsKept(c, d);
  }

  lemma CardStored(c: Ctl, step: CardStep, d: Ctl)
    requires Shapes(c) && AllInOrder(c.jobs) && RowsInv(c) && CardNext(c, step, d)
    ensures RowsInv(d)
  {
    CardFrame(c, step, d);
    NothingChanged(c, d);
    RowsKept(c, d);
  }

  /** Every step but a restart keeps the stored rows right. */
  lemma StoredKept(c: Ctl, step: Step, d: Ctl)
    requires LedgerInv(c) && DepInv(c) && RowsInv(c) && Next(c, step, d) && !step.Restart?
    ensures RowsInv(d)
  {
    match step
    case Client(s) => ClientStored(c, s, d);
    case Admit(s) => AdmitStored(c, s, d);
    case Poll(s) => PollStored(c, s, d);
    case Cards(s) => CardStored(c, s, d);
    case Flush(k) => WrittenKept(c, k);
  }
}

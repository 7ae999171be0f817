/** What the runners reported, and that rows, counters and the terminal status say it; when items are not run. */
module JobPoolReports {
  import opened Common
  import opened JobPool
  import opened JobPoolProof
  import opened JobPoolRuns

  // ---------- reports ----------

  predicate ReportsSuccess(r: Option<Report>) {
    r == Some(Reported(Success))
  }

  /** An empty report is a failure. */
  predicate ReportsFailure(r: Option<Report>) {
    r == Some(Reported(Failure)) || r == Some(NoReport)
  }

  predicate ReportsSkip(r: Option<Report>) {
    r == Some(Reported(Skip))
  }

  /** The outcome being booked is the one reported, and before the runner returned there is no report. */
  predicate Booked(p: Place, r: Option<Report>) {
    if p.Ran? || p.Recorded? || p.Counted? || p.Finished? then
      && (p.outcome == Success <==> ReportsSuccess(r))
      && (p.outcome == Failure <==> ReportsFailure(r))
      && (p.outcome == Skip <==> ReportsSkip(r))
    else r.None?
  }

  ghost predicate ReportsBooked(s: State) {
    |s.reports| == |s.place| && forall i :: 0 <= i < |s.place| ==> Booked(s.place[i], s.reports[i])
  }

  lemma WorkerStepBooks(s: State, a: Action)
    requires Enabled(s, a) && WorkerStep(a) && ReportsBooked(s)
    ensures ReportsBooked(Apply(s, a))
  {
    var i := s.workers[a.w].item;
    assert Booked(s.place[i], s.reports[i]);
    assert Booked(Apply(s, a).place[i], Apply(s, a).reports[i]);
  }

  lemma StepBooks(s: State, a: Action)
    requires Inv(s) && Enabled(s, a) && ReportsBooked(s)
    ensures ReportsBooked(Apply(s, a))
  {
    if WorkerStep(a) {
      WorkerStepBooks(s, a);
    } else if a.Send? {
      assert Booked(s.place[s.sent], s.reports[s.sent]);
    }
  }

  // ---------- skipping ----------

  /** Somebody was told to stop, which takes a stop request that landed on the running job. */
  predicate Halted(p: Place) {
    p.StopSeen? || p.StopFlagged? || p.StopCounted? || p.StopSkipped?
  }

  ghost predicate HaltsAreAsked(s: State) {
    && (s.status.Stopping? && s.starts == 1 ==> s.watch.landed)
    && (!s.watch.landed ==> forall i :: 0 <= i < |s.place| ==> !Halted(s.place[i]))
  }

  lemma CheckHalts(s: State, a: Action)
    requires Inv(s) && Enabled(s, a) && a.Check? && HaltsAreAsked(s)
    ensures HaltsAreAsked(Apply(s, a))
  {
    assert s.starts == 1;
  }

  lemma OthersDoNotHalt(s: State, a: Action)
    requires Enabled(s, a) && WorkerStep(a) && !a.Check? && HaltsAreAsked(s)
    ensures HaltsAreAsked(Apply(s, a))
  {
    assert !s.watch.landed ==> !Halted(s.place[s.workers[a.w].item]);
  }

  lemma WorkerStepHalts(s: State, a: Action)
    requires Inv(s) && Enabled(s, a) && WorkerStep(a) && HaltsAreAsked(s)
    ensures HaltsAreAsked(Apply(s, a))
  {
    if a.Check? {
      CheckHalts(s, a);
    } else {
      OthersDoNotHalt(s, a);
    }
  }

  lemma StepHalts(s: State, a: Action)
    requires Inv(s) && Enabled(s, a) && HaltsAreAsked(s)
    ensures HaltsAreAsked(Apply(s, a))
  {
    if WorkerStep(a) {
      WorkerStepHalts(s, a);
    }
  }

  /** A stop request on a running job lands; on a pending one it is remembered; on any other it does nothing. */
  lemma StopIsHeard(s: State)
    ensures var t := Apply(s, RequestStop);
            && (s.status.Running? ==> t.status.Stopping? && t.watch == Watch(true, 0, 0))
            && (s.status.Pending? ==> t.status.Stopping?)
            && (!s.status.Running? && !s.status.Pending? ==> t == s)
            && t == s.(status := t.status, watch := t.watch)
  {
  }

  // ---------- whole runs ----------

  lemma {:induction false} RunBooks(s: State, actions: seq<Action>)
    requires Inv(s) && CanRun(s, actions) && ReportsBooked(s) && HaltsAreAsked(s)
    ensures ReportsBooked(RunFrom(s, actions)) && HaltsAreAsked(RunFrom(s, actions))
    decreases |actions|
  {
    if actions != [] {
      StepKeeps(s, actions[0]);
      StepBooks(s, actions[0]);
      StepHalts(s, actions[0]);
      RunBooks(Apply(s, actions[0]), actions[1..]);
    }
  }

  lemma ReachedIsBooked(s: State, n: nat, workers: nat)
    requires Reached(s, n, workers)
    ensures ReportsBooked(s) && HaltsAreAsked(s)
  {
    var actions :| CanRun(Initial(n, workers), actions) && s == RunFrom(Initial(n, workers), actions);
    InitialInv(n, workers);
    RunBooks(Initial(n, workers), actions);
  }

  /** What a runner returns is its item's report. */
  lemma ReturnIsReported(s: State, w: nat, report: Report)
    requires Inv(s) && ReportsBooked(s) && Enabled(s, Return(w, report))
    ensures var i := s.workers[w].item;
            i < |s.reports| && s.reports[i].None? && Apply(s, Return(w, report)).reports == s.reports[i := Some(report)]
  {
    assert Booked(s.place[s.workers[w].item], s.reports[s.workers[w].item]);
  }

  /** An item whose runner has returned keeps its one report. */
  lemma ReportStays(s: State, a: Action, i: nat)
    requires Inv(s) && Enabled(s, a) && ReportsBooked(s) && i < |s.reports| && s.reports[i].Some?
    ensures i < |Apply(s, a).reports| && Apply(s, a).reports[i] == s.reports[i]
  {
    assert Booked(s.place[i], s.reports[i]);
  }

  /** When the job is about to end: the rows say what the runners reported; what was not run was skipped. */
  lemma RowsSayWhatWasReported(s: State, n: nat, workers: nat, i: nat)
    requires Reached(s, n, workers) && Enabled(s, Finish(true)) && s.books.faults == 0 && i < n
    ensures |s.books.rows| == n && |s.reports| == n && |s.runs| == n
    ensures s.books.rows[i] == RowSuccess <==> ReportsSuccess(s.reports[i])
    ensures s.books.rows[i] == RowFailed <==> ReportsFailure(s.reports[i])
    ensures s.books.rows[i] == RowSkipped <==> ReportsSkip(s.reports[i]) || s.reports[i].None?
    ensures s.reports[i].Some? <==> s.runs[i] == 1
  {
    ReachedIsSafe(s, n, workers);
    ReachedIsBooked(s, n, workers);
    AllSettled(s);
    assert Booked(s.place[i], s.reports[i]);
    assert s.place[i].Finished? || s.place[i].StopSkipped?;
    assert s.books.rows[i] == RowAt(s.place[i]);
  }

  /**
   * The terminal status, over what the runners reported: stopped when an item was not run; otherwise failed
   * when some reported failure and none success, partial when both, and succeeded when none failed.
   */
  lemma StatusSaysWhatWasReported(s: State, n: nat, workers: nat)
    requires Reached(s, n, workers) && Enabled(s, Finish(true)) && s.books.faults == 0
    ensures var status := Apply(s, Finish(true)).status;
            var unrun := exists i :: 0 <= i < |s.reports| && s.reports[i].None?;
            var succeeded := exists i :: 0 <= i < |s.reports| && ReportsSuccess(s.reports[i]);
            var failed := exists i :: 0 <= i < |s.reports| && ReportsFailure(s.reports[i]);
            && (status.Stopped? <==> unrun)
            && (status.Failed? <==> !unrun && failed && !succeeded)
            && (status.Partial? <==> !unrun && failed && succeeded)
            && (status.Succeeded? <==> !unrun && !failed)
  {
    ReachedIsSafe(s, n, workers);
    ReachedIsBooked(s, n, workers);
    AllSettled(s);
    TerminalStatusTellsTheTruth(s, n, workers);
    forall i | 0 <= i < n
      ensures s.books.rows[i] == RowSuccess <==> ReportsSuccess(s.reports[i])
      ensures s.books.rows[i] == RowFailed <==> ReportsFailure(s.reports[i])
      ensures s.place[i].StopSkipped? <==> s.reports[i].None?
    {
      RowsSayWhatWasReported(s, n, workers, i);
      assert Booked(s.place[i], s.reports[i]);
    }
  }

  /** Without a stop request on the running job, every item is run, and run once. */
  lemma EveryItemIsRun(s: State, n: nat, workers: nat, i: nat)
    requires Reached(s, n, workers) && Enabled(s, Finish(true)) && !s.watch.landed && i < n
    ensures i < |s.runs| == |s.reports| && s.runs[i] == 1 && s.reports[i].Some?
  {
    ReachedIsSafe(s, n, workers);
    ReachedIsBooked(s, n, workers);
    AllSettled(s);
    assert !Halted(s.place[i]) && Booked(s.place[i], s.reports[i]);
    assert s.place[i].Finished?;
  }
}

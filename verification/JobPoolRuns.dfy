/** What the worker pool's invariant says about whole runs of a job. */
module JobPoolRuns {
  import opened JobPool
  import opened JobPoolProof

  /** The state after some interleaving of a fresh job with n items on so many workers. */
  ghost predicate Reached(s: State, n: nat, workers: nat) {
    exists actions :: CanRun(Initial(n, workers), actions) && s == RunFrom(Initial(n, workers), actions)
  }

  lemma ReachedIsSafe(s: State, n: nat, workers: nat)
    requires Reached(s, n, workers)
    ensures Inv(s) && |s.place| == n && |s.workers| == workers
  {
    var actions :| CanRun(Initial(n, workers), actions) && s == RunFrom(Initial(n, workers), actions);
    InitialInv(n, workers);
    RunKeeps(Initial(n, workers), actions);
    SizesStay(Initial(n, workers), actions);
  }

  lemma {:induction false} SizesStay(s: State, actions: seq<Action>)
    requires CanRun(s, actions)
    ensures |RunFrom(s, actions).place| == |s.place| && |RunFrom(s, actions).workers| == |s.workers|
    decreases |actions|
  {
    if actions != [] { SizesStay(Apply(s, actions[0]), actions[1..]); }
  }

  // ---------- conservation ----------

  /** In every reachable state the counted and the uncounted items add up to all of them. */
  lemma ItemsAreConserved(s: State, n: nat, workers: nat)
    requires Reached(s, n, workers)
    ensures s.books.success + s.books.failed + s.books.skipped
          + Tally(s.place, Uncounted) + Tally(s.place, Unsent) + Tally(s.place, Lost) == n
    ensures Tally(s.place, Unsent) == n - s.sent
    ensures !s.cancelled ==> Tally(s.place, Lost) == 0
  {
    ReachedIsSafe(s, n, workers);
    Partition(s.place);
    UnsentIsTheRest(s.place, s.sent);
  }

  lemma {:induction false} UnsentIsTheRest(place: seq<Place>, sent: nat)
    requires sent <= |place| && forall i :: 0 <= i < |place| ==> (place[i].Waiting? <==> i >= sent)
    ensures Tally(place, Unsent) == |place| - sent
  {
    if place != [] {
      var rest := if sent == 0 then 0 else sent - 1;
      forall i | 0 <= i < |place[1..]| ensures place[1..][i].Waiting? <==> i >= rest {
        assert place[1..][i] == place[i + 1];
      }
      UnsentIsTheRest(place[1..], rest);
    }
  }

  /** No item is in two workers' hands, and none is ever run twice. */
  lemma EachItemRunsAtMostOnce(s: State, n: nat, workers: nat)
    requires Reached(s, n, workers)
    ensures |s.runs| == n && forall i :: 0 <= i < n ==> s.runs[i] <= 1
    ensures forall i :: s.sent <= i < n ==> s.runs[i] == 0
    ensures forall v, w :: 0 <= v < w < |s.workers| && s.workers[v].Busy? && s.workers[w].Busy? ==>
              s.workers[v].item != s.workers[w].item
  {
    ReachedIsSafe(s, n, workers);
  }

  // ---------- the end of a job ----------

  predicate AllGone(s: State) {
    forall w :: 0 <= w < |s.workers| ==> s.workers[w].Gone?
  }

  lemma NothingInHand(s: State)
    requires Inv(s) && AllGone(s)
    ensures forall i :: 0 <= i < |s.place| ==> !Holding(s.place[i])
    ensures Tally(s.place, Uncounted) == 0
  {
    BusyAtMost(s.workers);
    TallyNone(s.place, InHand);
    TallyNone(s.place, Uncounted);
  }

  ghost predicate SomeRow(s: State, row: RowStatus) {
    exists i :: 0 <= i < |s.books.rows| && s.books.rows[i] == row
  }

  ghost predicate SomeStopped(s: State) {
    exists i :: 0 <= i < |s.place| && s.place[i].StopSkipped?
  }

  /** With every worker gone and no shutdown, every item is settled and counted. */
  lemma AllSettled(s: State)
    requires Inv(s) && s.phase.Closed? && AllGone(s) && !s.cancelled
    ensures forall i :: 0 <= i < |s.place| ==> s.place[i].Finished? || s.place[i].StopSkipped?
    ensures s.books.success + s.books.failed + s.books.skipped == |s.place|
  {
    NothingInHand(s);
    Partition(s.place);
    UnsentIsTheRest(s.place, s.sent);
    TallyNone(s.place, Lost);
  }

  lemma SettledRow(p: Place)
    requires p.Finished? || p.StopSkipped?
    ensures RowAt(p) == RowSuccess <==> Is(p, InSuccess)
    ensures RowAt(p) == RowFailed <==> Is(p, InFailed)
    ensures Is(p, InSuccess) <==> Is(p, StoredSuccess)
    ensures Is(p, InFailed) <==> Is(p, StoredFailed)
    ensures Is(p, Flagged) <==> p.StopSkipped?
  {
    if p.Finished? { match p.outcome { case Success => case Failure => case Skip => } }
  }

  lemma SettledRows(s: State)
    requires Inv(s) && s.phase.Closed? && AllGone(s) && !s.cancelled && s.books.faults == 0
    ensures forall i :: 0 <= i < |s.place| ==>
              && (s.books.rows[i] == RowSuccess <==> Is(s.place[i], InSuccess))
              && (s.books.rows[i] == RowFailed <==> Is(s.place[i], InFailed))
              && (Is(s.place[i], InSuccess) <==> Is(s.place[i], StoredSuccess))
              && (Is(s.place[i], InFailed) <==> Is(s.place[i], StoredFailed))
              && (Is(s.place[i], Flagged) <==> s.place[i].StopSkipped?)
  {
    AllSettled(s);
    forall i | 0 <= i < |s.place| { SettledRow(s.place[i]); }
  }

  /** How many item rows have this status. */
  function RowCount(rows: seq<RowStatus>, row: RowStatus): nat {
    if rows == [] then 0 else RowCount(rows[1..], row) + if rows[0] == row then 1 else 0
  }

  lemma {:induction false} RowCountIsTally(rows: seq<RowStatus>, row: RowStatus, place: seq<Place>, k: Kind)
    requires |rows| == |place| && forall i :: 0 <= i < |place| ==> (rows[i] == row <==> Is(place[i], k))
    ensures RowCount(rows, row) == Tally(place, k)
  {
    if rows != [] {
      forall i | 0 <= i < |place[1..]| ensures rows[1..][i] == row <==> Is(place[1..][i], k) {
        assert rows[1..][i] == rows[i + 1] && place[1..][i] == place[i + 1];
      }
      RowCountIsTally(rows[1..], row, place[1..], k);
    }
  }

  /** The stored counters are the numbers of rows, not only of each other. */
  lemma StoredCountsAreRows(s: State)
    requires Inv(s) && s.phase.Closed? && AllGone(s) && !s.cancelled && s.books.faults == 0
    ensures s.books.storedSuccess == RowCount(s.books.rows, RowSuccess)
    ensures s.books.storedFailed == RowCount(s.books.rows, RowFailed)
  {
    SettledRows(s);
    RowCountIsTally(s.books.rows, RowSuccess, s.place, StoredSuccess);
    RowCountIsTally(s.books.rows, RowFailed, s.place, StoredFailed);
  }

  lemma FaultlessRows(s: State)
    requires Inv(s) && s.phase.Closed? && AllGone(s) && !s.cancelled && s.books.faults == 0
    ensures s.books.storedSuccess == s.books.success && s.books.storedFailed == s.books.failed
    ensures s.books.success > 0 <==> SomeRow(s, RowSuccess)
    ensures s.books.failed > 0 <==> SomeRow(s, RowFailed)
    ensures s.books.stopped <==> SomeStopped(s)
  {
    SettledRows(s);
    SameTally(s.place, InSuccess, StoredSuccess);
    SameTally(s.place, InFailed, StoredFailed);
    TallyNone(s.place, InSuccess);
    TallyNone(s.place, InFailed);
    TallyNone(s.place, Flagged);
  }

  lemma {:induction false} SameTally(place: seq<Place>, j: Kind, k: Kind)
    requires forall i :: 0 <= i < |place| ==> (Is(place[i], j) <==> Is(place[i], k))
    ensures Tally(place, j) == Tally(place, k)
  {
    if place != [] {
      forall i | 0 <= i < |place[1..]| ensures Is(place[1..][i], j) <==> Is(place[1..][i], k) {
        assert place[1..][i] == place[i + 1];
      }
      SameTally(place[1..], j, k);
    }
  }

  /**
   * The terminal status the run writes says what the item rows say: stopped when a stop
   * request skipped an item; failed when rows failed and none succeeded; partial when
   * both happened; succeeded when no row failed. It is only ever written with all items counted, and the
   * stored counters are then the numbers of successful and failed rows.
   */
  lemma TerminalStatusTellsTheTruth(s: State, n: nat, workers: nat)
    requires Reached(s, n, workers) && Enabled(s, Finish(true))
    ensures s.books.success + s.books.failed + s.books.skipped == n
    ensures s.books.faults == 0 ==>
              && s.books.storedSuccess == s.books.success == RowCount(s.books.rows, RowSuccess)
              && s.books.storedFailed == s.books.failed == RowCount(s.books.rows, RowFailed)
              && var status := Apply(s, Finish(true)).status;
                 && (status.Stopped? <==> SomeStopped(s))
                 && (status.Failed? <==> !SomeStopped(s) && SomeRow(s, RowFailed) && !SomeRow(s, RowSuccess))
                 && (status.Partial? <==> !SomeStopped(s) && SomeRow(s, RowFailed) && SomeRow(s, RowSuccess))
                 && (status.Succeeded? <==> !SomeStopped(s) && !SomeRow(s, RowFailed))
  {
    ReachedIsSafe(s, n, workers);
    AllSettled(s);
    if s.books.faults == 0 {
      FaultlessRows(s);
      StoredCountsAreRows(s);
    }
  }

  // ---------- stopping ----------

  /** After a stop request at most one run per worker still begins, plus one per status read that failed. */
  lemma StopIsBounded(s: State, n: nat, workers: nat)
    requires Reached(s, n, workers) && s.watch.landed
    ensures s.watch.runs <= workers + s.watch.blind
  {
    ReachedIsSafe(s, n, workers);
  }

  /** When a job ends without shutdown, an item that was not run ends skipped, and only by a stop. */
  lemma UnrunItemsEndSkipped(s: State, n: nat, workers: nat, i: nat)
    requires Reached(s, n, workers) && Enabled(s, Finish(true)) && i < |s.runs| && s.runs[i] == 0
    ensures i < |s.place| && s.place[i].StopSkipped? && s.books.stopped
    ensures s.books.faults == 0 ==> i < |s.books.rows| && s.books.rows[i] == RowSkipped
  {
    ReachedIsSafe(s, n, workers);
    AllSettled(s);
    TallyNone(s.place, Flagged);
  }

  /** However many attempts there are, one run at most passes the start gate. */
  lemma OnlyOneRunStarts(s: State, n: nat, workers: nat)
    requires Reached(s, n, workers)
    ensures s.starts <= 1
    ensures s.starts == 1 && Enabled(s, TryStart(true)) ==> Apply(s, TryStart(true)) == s
  {
    ReachedIsSafe(s, n, workers);
  }

  lemma TerminalStep(s: State, a: Action)
    requires Inv(s) && Enabled(s, a) && Terminal(s.status)
    ensures Apply(s, a).status == s.status
  {
  }

  /** A terminal status is never left. */
  lemma {:induction false} TerminalIsForEver(s: State, actions: seq<Action>)
    requires Inv(s) && CanRun(s, actions) && Terminal(s.status)
    ensures RunFrom(s, actions).status == s.status
    decreases |actions|
  {
    if actions != [] {
      TerminalStep(s, actions[0]);
      StepKeeps(s, actions[0]);
      TerminalIsForEver(Apply(s, actions[0]), actions[1..]);
    }
  }

  predicate NoReap(actions: seq<Action>) {
    forall i :: 0 <= i < |actions| ==> !actions[i].Reap?
  }

  /** A stop that arrives before the start gate leaves the job stopping until a restart reaps it: nothing ever runs. */
  lemma {:induction false} StopBeforeStartSticks(s: State, actions: seq<Action>)
    requires Inv(s) && CanRun(s, actions) && NoReap(actions) && s.starts == 0 && s.status.Stopping?
    ensures var t := RunFrom(s, actions); t.status.Stopping? && t.starts == 0 && forall i :: 0 <= i < |t.runs| ==> t.runs[i] == 0
    decreases |actions|
  {
    if actions != [] {
      StepKeeps(s, actions[0]);
      assert Apply(s, actions[0]).starts == 0 && Apply(s, actions[0]).status.Stopping?;
      StopBeforeStartSticks(Apply(s, actions[0]), actions[1..]);
    } else {
      NothingBegunBeforeStart(s);
    }
  }

  /** Taking one action after the other. */
  lemma TwoSteps(s: State, a: Action, b: Action)
    requires Enabled(s, a) && Enabled(Apply(s, a), b)
    ensures CanRun(s, [a, b]) && RunFrom(s, [a, b]) == Apply(Apply(s, a), b)
  {
    assert [a, b][1..] == [b] && [b][1..] == [];
    assert CanRun(Apply(s, a), [b]) && RunFrom(Apply(s, a), [b]) == Apply(Apply(s, a), b);
  }

  lemma {:induction false} ShutdownBeforeStartSticks(s: State, actions: seq<Action>)
    requires Inv(s) && CanRun(s, actions) && NoReap(actions) && s.starts == 0 && s.cancelled && !Terminal(s.status)
    ensures RunFrom(s, actions).starts == 0 && !Terminal(RunFrom(s, actions).status)
    decreases |actions|
  {
    if actions != [] {
      StepKeeps(s, actions[0]);
      var t := Apply(s, actions[0]);
      assert t.starts == 0 && t.cancelled && !Terminal(t.status);
      ShutdownBeforeStartSticks(t, actions[1..]);
    }
  }

  ghost predicate CanEnd(s: State) {
    exists actions :: CanRun(s, actions) && NoReap(actions) && Terminal(RunFrom(s, actions).status)
  }

  /**
   * While the process lives and before the start gate, a job that has not ended can still end by itself
   * if and only if it is pending and no shutdown was asked for.
   */
  lemma EndsOnlyFromPending(s: State)
    requires Inv(s) && s.phase.Unstarted? && !Terminal(s.status)
    ensures CanEnd(s) <==> s.status.Pending? && !s.cancelled
  {
    if s.status.Pending? && !s.cancelled {
      var actions := [TryStart(true), FailLoad(true)];
      TwoSteps(s, actions[0], actions[1]);
      assert NoReap(actions);
    } else if actions :| CanRun(s, actions) && NoReap(actions) && Terminal(RunFrom(s, actions).status) {
      if s.cancelled {
        ShutdownBeforeStartSticks(s, actions);
      } else {
        StopBeforeStartSticks(s, actions);
      }
    }
  }

  lemma NothingBegunBeforeStart(s: State)
    requires Inv(s) && s.starts == 0
    ensures forall i :: 0 <= i < |s.runs| ==> s.runs[i] == 0
  {
  }
}

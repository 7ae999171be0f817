/**
 * What the remembered numbers of the pool count, read off the actions themselves: failed writes, runs and
 * failed status reads after a stop, items lost to a shutdown; and what the world may do at any time.
 */
module JobPoolHistory {
  import opened JobPool
  import opened JobPoolProof
  import opened JobPoolRuns

  // ---------- the beginning, and the world ----------

  /** A new job is pending with all its items, and nothing has happened to it. */
  lemma NewJobIsFresh(n: nat, workers: nat)
    ensures var s := Initial(n, workers);
            && s.status.Pending? && s.phase.Unstarted? && s.starts == 0 && !s.cancelled && s.sent == 0
            && |s.place| == |s.runs| == |s.reports| == |s.books.rows| == n && |s.workers| == workers
            && (forall i :: 0 <= i < n ==> s.place[i].Waiting? && s.runs[i] == 0 && s.reports[i].None? && s.books.rows[i] == RowPending)
            && (forall w :: 0 <= w < workers ==> s.workers[w].Idle?)
            && s.books.success == s.books.failed == s.books.skipped == s.books.storedSuccess == s.books.storedFailed == s.books.faults == 0
            && !s.books.stopped && !s.watch.landed
  {
  }

  /** Stops, shutdowns and crashes come at any time. */
  lemma WorldIsFree(s: State)
    ensures Enabled(s, RequestStop) && Enabled(s, Shutdown) && Enabled(s, Crash)
    ensures Apply(s, Shutdown) == s.(cancelled := true) && Apply(s, Crash) == s.(phase := Dead)
  {
  }

  /** Every read and write of a worker may fail. */
  lemma StoreMayFail(s: State, w: nat)
    ensures Enabled(s, Check(w, true)) ==> Enabled(s, Check(w, false))
    ensures Enabled(s, Begin(w, true)) ==> Enabled(s, Begin(w, false))
    ensures Enabled(s, RecordSkip(w, true)) ==> Enabled(s, RecordSkip(w, false))
  {
  }

  lemma BookingMayFail(s: State, w: nat)
    ensures Enabled(s, Record(w, true)) ==> Enabled(s, Record(w, false))
    ensures Enabled(s, Store(w, true)) ==> Enabled(s, Store(w, false))
  {
  }

  lemma FinishMayFail(s: State)
    ensures Enabled(s, Finish(true)) ==> Enabled(s, Finish(false)) && Apply(s, Finish(false)).status == s.status
  {
  }

  /** A job whose items cannot be read fails; one whose process died is interrupted by the next start, once. */
  lemma EarlyEnds(s: State)
    ensures Enabled(s, FailLoad(true)) ==> Apply(s, FailLoad(true)).status.Failed?
    ensures Enabled(s, Reap) ==>
              var t := Apply(s, Reap);
              if s.status.Running? || s.status.Stopping? then t == s.(status := Interrupted) else t == s
  {
  }

  // ---------- failed writes ----------

  /** The action is a write to a row or to the stored counters, and it failed; a skipped item has no counter. */
  predicate FailedWrite(s: State, a: Action)
    requires Enabled(s, a)
  {
    match a
    case Begin(_, ok) => !ok
    case Record(_, ok) => !ok
    case RecordSkip(_, ok) => !ok
    case Store(w, ok) => !ok && s.place[s.workers[w].item].outcome != Skip
    case _ => false
  }

  /** Exactly these are counted as faults. */
  lemma FaultsAreFailedWrites(s: State, a: Action)
    requires Inv(s) && Enabled(s, a)
    ensures Apply(s, a).books.faults == s.books.faults + if FailedWrite(s, a) then 1 else 0
  {
    if WorkerStep(a) {
      assert s.workers[a.w].item < |s.books.rows|;
    }
  }

  predicate WriteFails(a: Action) {
    (a.Begin? || a.Record? || a.RecordSkip? || a.Store?) && !a.ok
  }

  /** So in a run in which no write fails there are none. */
  lemma {:induction false} NoFailedWriteNoFault(s: State, actions: seq<Action>)
    requires Inv(s) && CanRun(s, actions) && forall i :: 0 <= i < |actions| ==> !WriteFails(actions[i])
    ensures RunFrom(s, actions).books.faults == s.books.faults
    decreases |actions|
  {
    if actions != [] {
      assert !WriteFails(actions[0]);
      FaultsAreFailedWrites(s, actions[0]);
      StepKeeps(s, actions[0]);
      NoFailedWriteNoFault(Apply(s, actions[0]), actions[1..]);
    }
  }

  // ---------- after a stop ----------

  /** How many runs begin. */
  function Begins(actions: seq<Action>): nat {
    if actions == [] then 0 else (if actions[0].Begin? then 1 else 0) + Begins(actions[1..])
  }

  /** How many times the status could not be read. */
  function FailedReads(actions: seq<Action>): nat {
    if actions == [] then 0 else (if actions[0].Check? && !actions[0].ok then 1 else 0) + FailedReads(actions[1..])
  }

  /** A stopped job is not running any more. */
  ghost predicate StoppedForGood(s: State) {
    s.watch.landed ==> !s.status.Running? && !s.status.Pending?
  }

  lemma StepStaysStopped(s: State, a: Action)
    requires Inv(s) && Enabled(s, a) && StoppedForGood(s)
    ensures StoppedForGood(Apply(s, a))
  {
  }

  lemma {:induction false} RunStaysStopped(s: State, actions: seq<Action>)
    requires Inv(s) && CanRun(s, actions) && StoppedForGood(s)
    ensures StoppedForGood(RunFrom(s, actions))
    decreases |actions|
  {
    if actions != [] {
      StepStaysStopped(s, actions[0]);
      StepKeeps(s, actions[0]);
      RunStaysStopped(Apply(s, actions[0]), actions[1..]);
    }
  }

  lemma WatchCountsStep(s: State, a: Action)
    requires Enabled(s, a) && s.watch.landed && StoppedForGood(s)
    ensures Apply(s, a).watch == Watch(true, s.watch.runs + Begins([a]), s.watch.blind + FailedReads([a]))
  {
    assert [a][1..] == [];
  }

  lemma {:induction false} WatchCounts(s: State, actions: seq<Action>)
    requires Inv(s) && CanRun(s, actions) && s.watch.landed && StoppedForGood(s)
    ensures RunFrom(s, actions).watch == Watch(true, s.watch.runs + Begins(actions), s.watch.blind + FailedReads(actions))
    decreases |actions|
  {
    if actions != [] {
      assert [actions[0]][1..] == [];
      WatchCountsStep(s, actions[0]);
      StepStaysStopped(s, actions[0]);
      StepKeeps(s, actions[0]);
      WatchCounts(Apply(s, actions[0]), actions[1..]);
    }
  }

  /**
   * When a stop request lands on a running job, whatever happens afterwards: at most one more run per worker
   * begins, plus one for every status read that fails.
   */
  lemma StopBoundsTheRun(s: State, n: nat, workers: nat, more: seq<Action>)
    requires Reached(s, n, workers) && s.status.Running? && CanRun(Apply(s, RequestStop), more)
    ensures Begins(more) <= workers + FailedReads(more)
  {
    ReachedIsSafe(s, n, workers);
    var t := Apply(s, RequestStop);
    StepKeeps(s, RequestStop);
    WatchCounts(t, more);
    RunKeeps(t, more);
    SizesStay(t, more);
  }

  // ---------- shutdown ----------

  function GoneCount(workers: seq<Worker>): nat {
    if workers == [] then 0 else GoneCount(workers[1..]) + if workers[0].Gone? then 1 else 0
  }

  lemma {:induction false} GoneUpdate(workers: seq<Worker>, w: nat, v: Worker)
    requires w < |workers|
    ensures GoneCount(workers[w := v]) == GoneCount(workers) - (if workers[w].Gone? then 1 else 0) + (if v.Gone? then 1 else 0)
  {
    if w == 0 {
      assert workers[0 := v][1..] == workers[1..];
    } else {
      assert workers[w := v][1..] == workers[1..][w - 1 := v];
      GoneUpdate(workers[1..], w - 1, v);
    }
  }

  lemma {:induction false} GoneAtMost(workers: seq<Worker>)
    ensures GoneCount(workers) <= |workers|
  {
    if workers != [] {
      GoneAtMost(workers[1..]);
    }
  }

  ghost predicate LossesAreLeavers(s: State) {
    Tally(s.place, Lost) <= GoneCount(s.workers)
  }

  lemma MoveLosses(s: State, w: nat, p: Place, next: Worker)
    requires w < |s.workers| && s.workers[w].Busy? && s.workers[w].item < |s.place| && LossesAreLeavers(s)
    requires p.Dropped? ==> next.Gone?
    ensures Tally(s.place[s.workers[w].item := p], Lost) <= GoneCount(s.workers[w := next])
  {
    TallyUpdate(s.place, s.workers[w].item, p, Lost);
    GoneUpdate(s.workers, w, next);
  }

  lemma WorkerStepLosses(s: State, a: Action)
    requires Enabled(s, a) && WorkerStep(a) && LossesAreLeavers(s)
    ensures LossesAreLeavers(Apply(s, a))
  {
    var t, i := Apply(s, a), s.workers[a.w].item;
    assert s.workers[a.w := s.workers[a.w]] == s.workers;
    MoveLosses(s, a.w, t.place[i], t.workers[a.w]);
    assert t.place == s.place[i := t.place[i]] && t.workers == s.workers[a.w := t.workers[a.w]];
  }

  lemma StepLosses(s: State, a: Action)
    requires Inv(s) && Enabled(s, a) && LossesAreLeavers(s)
    ensures LossesAreLeavers(Apply(s, a))
  {
    if WorkerStep(a) {
      WorkerStepLosses(s, a);
    } else if a.Send? {
      TallyUpdate(s.place, s.sent, Received, Lost);
      GoneUpdate(s.workers, a.w, Busy(s.sent));
    } else if a.Leave? {
      GoneUpdate(s.workers, a.w, Gone);
    }
  }

  lemma {:induction false} RunLosses(s: State, actions: seq<Action>)
    requires Inv(s) && CanRun(s, actions) && LossesAreLeavers(s)
    ensures LossesAreLeavers(RunFrom(s, actions))
    decreases |actions|
  {
    if actions != [] {
      StepLosses(s, actions[0]);
      StepKeeps(s, actions[0]);
      RunLosses(Apply(s, actions[0]), actions[1..]);
    }
  }

  /** A shutdown loses at most one received item per worker: whoever drops one takes no other. */
  lemma ShutdownLosesFew(s: State, n: nat, workers: nat)
    requires Reached(s, n, workers)
    ensures Tally(s.place, Lost) <= workers
  {
    var actions :| CanRun(Initial(n, workers), actions) && s == RunFrom(Initial(n, workers), actions);
    InitialInv(n, workers);
    TallyNone(Initial(n, workers).place, Lost);
    RunLosses(Initial(n, workers), actions);
    SizesStay(Initial(n, workers), actions);
    GoneAtMost(s.workers);
  }
}

/**
 * The pool never gets stuck: as long as nobody shuts it down and its writes succeed, some step of its own
 * is possible until the job has ended, and there are only so many of them.
 */
module JobPoolProgress {
  import opened JobPool
  import opened JobPoolProof

  /** The pool's own steps, with their reads and writes succeeding. */
  predicate Own(a: Action) {
    match a
    case Load(ok) => ok
    case FailLoad(ok) => ok
    case Send(_) => true
    case Close => true
    case Check(_, ok) => ok
    case Proceed(_) => true
    case Begin(_, ok) => ok
    case Return(_, _) => true
    case Record(_, ok) => ok
    case Count(_) => true
    case Store(_, ok) => ok
    case RaiseFlag(_) => true
    case CountSkip(_) => true
    case RecordSkip(_, ok) => ok
    case Leave(_) => true
    case Finish(ok) => ok
    case _ => false
  }

  predicate AllOwn(actions: seq<Action>) {
    forall i :: 0 <= i < |actions| ==> Own(actions[i])
  }

  ghost predicate Stuck(s: State) {
    forall a :: Own(a) ==> !Enabled(s, a)
  }

  // ---------- how many steps are left ----------

  function StepsLeft(p: Place): nat {
    match p
    case Waiting => 9
    case Received => 8
    case Cleared => 7
    case Starting => 6
    case InRun => 5
    case Ran(_) => 4
    case Recorded(_) => 3
    case Counted(_) => 2
    case Finished(_) => 0
    case StopSeen => 4
    case StopFlagged => 3
    case StopCounted => 2
    case StopSkipped => 0
    case Dropped => 0
  }

  function Work(place: seq<Place>): nat {
    if place == [] then 0 else StepsLeft(place[0]) + Work(place[1..])
  }

  function Present(workers: seq<Worker>): nat {
    if workers == [] then 0 else (if workers[0].Gone? then 0 else 1) + Present(workers[1..])
  }

  function Ahead(phase: Phase): nat {
    match phase
    case Unstarted => 4
    case Loading => 3
    case Sending => 2
    case Closed => 1
    case Ended => 0
    case Dead => 0
  }

  function Remaining(s: State): nat {
    Work(s.place) + Present(s.workers) + Ahead(s.phase)
  }

  lemma {:induction false} WorkUpdate(place: seq<Place>, i: nat, p: Place)
    requires i < |place|
    ensures Work(place[i := p]) == Work(place) - StepsLeft(place[i]) + StepsLeft(p)
  {
    if i == 0 {
      assert place[0 := p][1..] == place[1..];
    } else {
      assert place[i := p][1..] == place[1..][i - 1 := p];
      WorkUpdate(place[1..], i - 1, p);
    }
  }

  lemma {:induction false} PresentUpdate(workers: seq<Worker>, w: nat, v: Worker)
    requires w < |workers|
    ensures Present(workers[w := v]) == Present(workers) - (if workers[w].Gone? then 0 else 1) + (if v.Gone? then 0 else 1)
  {
    if w == 0 {
      assert workers[0 := v][1..] == workers[1..];
    } else {
      assert workers[w := v][1..] == workers[1..][w - 1 := v];
      PresentUpdate(workers[1..], w - 1, v);
    }
  }

  /** A worker's step takes its item strictly further. */
  lemma MoveWorks(s: State, w: nat, p: Place, next: Worker)
    requires w < |s.workers| && s.workers[w].Busy? && s.workers[w].item < |s.place|
    requires StepsLeft(p) < StepsLeft(s.place[s.workers[w].item])
    ensures Work(s.place[s.workers[w].item := p]) + Present(s.workers[w := next]) < Work(s.place) + Present(s.workers)
  {
    WorkUpdate(s.place, s.workers[w].item, p);
    PresentUpdate(s.workers, w, next);
  }

  predicate WorkerStep(a: Action) {
    a.Check? || a.Proceed? || a.Begin? || a.Return? || a.Record? || a.Count? || a.Store? || a.RaiseFlag?
    || a.CountSkip? || a.RecordSkip?
  }

  /** The goroutine's and the workers' own steps, whether their reads and writes succeed or not. */
  predicate PoolStep(a: Action) {
    WorkerStep(a) || a.Load? || a.FailLoad? || a.Send? || a.Close? || a.Leave? || a.Finish?
  }

  lemma WorkerStepShortens(s: State, a: Action)
    requires Enabled(s, a) && WorkerStep(a)
    ensures Remaining(Apply(s, a)) < Remaining(s)
  {
    var t := Apply(s, a);
    var w, i := a.w, s.workers[a.w].item;
    assert t.place == s.place[i := t.place[i]] && t.workers == s.workers[w := t.workers[w]] && t.phase == s.phase;
    MoveWorks(s, w, t.place[i], t.workers[w]);
  }

  lemma OtherStepShortens(s: State, a: Action)
    requires Hands(s.workers, s.place, s.sent) && Enabled(s, a) && PoolStep(a) && !WorkerStep(a)
    ensures Remaining(Apply(s, a)) < Remaining(s)
  {
    match a
    case Send(w) =>
      WorkUpdate(s.place, s.sent, Received);
      PresentUpdate(s.workers, w, Busy(s.sent));
    case Leave(w) => PresentUpdate(s.workers, w, Gone);
    case _ =>
  }

  /** Every step of the pool leaves fewer to take, also when its write fails. */
  lemma PoolStepShortens(s: State, a: Action)
    requires Inv(s) && Enabled(s, a) && PoolStep(a)
    ensures Remaining(Apply(s, a)) < Remaining(s)
  {
    if WorkerStep(a) {
      WorkerStepShortens(s, a);
    } else {
      OtherStepShortens(s, a);
    }
  }

  // ---------- somebody can always move ----------

  /** Workers leave only when the queue is closed or the pool shut down. */
  predicate NobodyLeftEarly(s: State) {
    !s.cancelled && (s.phase.Loading? || s.phase.Sending?) ==>
      forall w :: 0 <= w < |s.workers| ==> !s.workers[w].Gone?
  }

  lemma WorkerStepKeepsCrew(s: State, a: Action)
    requires Enabled(s, a) && WorkerStep(a) && NobodyLeftEarly(s)
    ensures NobodyLeftEarly(Apply(s, a)) && |Apply(s, a).workers| == |s.workers|
  {
  }

  lemma StepKeepsCrew(s: State, a: Action)
    requires Inv(s) && Enabled(s, a) && NobodyLeftEarly(s)
    ensures NobodyLeftEarly(Apply(s, a)) && |Apply(s, a).workers| == |s.workers|
  {
    if WorkerStep(a) {
      WorkerStepKeepsCrew(s, a);
    }
  }

  /** A worker with an item in hand has a next step. */
  lemma BusyCanMove(s: State, w: nat) returns (a: Action)
    requires Inv(s) && (s.phase.Sending? || s.phase.Closed?) && !s.cancelled && w < |s.workers| && s.workers[w].Busy?
    ensures Own(a) && Enabled(s, a)
  {
    match s.place[s.workers[w].item]
    case Received => a := Check(w, true);
    case Cleared => a := Proceed(w);
    case Starting => a := Begin(w, true);
    case InRun => a := Return(w, NoReport);
    case Ran(o) =>
      a := Record(w, true);
      match o { case Success => case Failure => case Skip => }
    case Recorded(o) =>
      a := Count(w);
      match o { case Success => case Failure => case Skip => }
    case Counted(o) =>
      a := Store(w, true);
      match o { case Success => case Failure => case Skip => }
    case StopSeen => a := RaiseFlag(w);
    case StopFlagged => a := CountSkip(w);
    case StopCounted => a := RecordSkip(w, true);
  }

  /** Deadlock freedom: a started job that nobody shut down can take a step of its own. */
  lemma NeverStuck(s: State) returns (a: Action)
    requires Inv(s) && Alive(s.phase) && !s.cancelled && NobodyLeftEarly(s) && |s.workers| > 0
    ensures Own(a) && Enabled(s, a)
  {
    if s.phase.Loading? {
      a := Load(true);
    } else if w: nat :| w < |s.workers| && s.workers[w].Busy? {
      a := BusyCanMove(s, w);
    } else if s.phase.Sending? {
      assert s.workers[0].Idle?;
      a := if s.sent < |s.place| then Send(0) else Close;
    } else if w: nat :| w < |s.workers| && s.workers[w].Idle? {
      a := Leave(w);
    } else {
      a := Finish(true);
    }
  }

  lemma OwnStepEnds(s: State, a: Action)
    requires Enabled(s, a) && Own(a) && Alive(s.phase) && !s.cancelled
    ensures !Apply(s, a).cancelled && (Alive(Apply(s, a).phase) || Terminal(Apply(s, a).status))
    ensures Alive(Apply(s, a).phase) || Apply(s, a).phase.Ended?
  {
  }

  lemma EndedIsStuck(s: State, a: Action)
    requires s.phase.Ended? && Own(a)
    ensures !Enabled(s, a)
  {
  }

  /**
   * Every started job ends: whatever order the pool's own steps are taken in, there are at most so many,
   * and when none is left the job has a terminal status.
   */
  lemma {:induction false} StartedJobsEnd(s: State, actions: seq<Action>)
    requires Inv(s) && Alive(s.phase) && !s.cancelled && NobodyLeftEarly(s) && |s.workers| > 0
    requires CanRun(s, actions) && AllOwn(actions)
    ensures |actions| <= Remaining(s)
    ensures Stuck(RunFrom(s, actions)) <==> Terminal(RunFrom(s, actions).status)
    decreases |actions|
  {
    if actions == [] {
      var a := NeverStuck(s);
      assert Own(a) && Enabled(s, a);
    } else {
      var a, t := actions[0], Apply(s, actions[0]);
      assert Own(a);
      PoolStepShortens(s, a);
      OwnStepEnds(s, a);
      if Alive(t.phase) {
        StepKeeps(s, a);
        StepKeepsCrew(s, a);
        assert AllOwn(actions[1..]);
        StartedJobsEnd(t, actions[1..]);
      } else {
        forall b | Own(b) ensures !Enabled(t, b) {
          EndedIsStuck(t, b);
        }
        if actions[1..] != [] {
          EndedIsStuck(t, actions[1]);
        }
      }
    }
  }

  lemma {:induction false} RunKeepsCrew(s: State, actions: seq<Action>)
    requires Inv(s) && NobodyLeftEarly(s) && CanRun(s, actions)
    ensures Inv(RunFrom(s, actions)) && NobodyLeftEarly(RunFrom(s, actions))
    ensures |RunFrom(s, actions).workers| == |s.workers|
    decreases |actions|
  {
    if actions != [] {
      StepKeeps(s, actions[0]);
      StepKeepsCrew(s, actions[0]);
      RunKeepsCrew(Apply(s, actions[0]), actions[1..]);
    }
  }

  /** From any reachable state of a started job: the pool's own steps come to an end, and the end is terminal. */
  lemma EveryStartedJobEnds(n: nat, workers: nat, before: seq<Action>, after: seq<Action>)
    requires workers > 0 && CanRun(Initial(n, workers), before)
    requires var s := RunFrom(Initial(n, workers), before);
             Alive(s.phase) && !s.cancelled && CanRun(s, after) && AllOwn(after)
    ensures var s := RunFrom(Initial(n, workers), before);
            && |after| <= Remaining(s)
            && (Stuck(RunFrom(s, after)) <==> Terminal(RunFrom(s, after).status))
  {
    InitialInv(n, workers);
    RunKeepsCrew(Initial(n, workers), before);
    StartedJobsEnd(RunFrom(Initial(n, workers), before), after);
  }

  // ---------- after a shutdown ----------

  /**
   * Items are loaded only before a shutdown, the queue is closed when all were sent or after one, and idle
   * workers leave when the queue is closed or after one.
   */
  lemma LoadingAndClosing(s: State, ok: bool, w: nat)
    ensures Enabled(s, Leave(w)) <==> w < |s.workers| && s.workers[w].Idle? && (s.phase.Closed? || (s.phase.Sending? && s.cancelled))
    ensures Enabled(s, Load(ok)) <==> s.phase.Loading? && ok && !s.cancelled
    ensures Enabled(s, Close) <==> s.phase.Sending? && (s.sent == |s.place| || s.cancelled)
  {
  }

  /** A worker with an item in hand has a next step even when every write fails. */
  lemma BusyCanMoveOn(s: State, w: nat) returns (a: Action)
    requires Inv(s) && (s.phase.Sending? || s.phase.Closed?) && w < |s.workers| && s.workers[w].Busy?
    ensures PoolStep(a) && Enabled(s, a)
  {
    match s.place[s.workers[w].item]
    case Received => a := Check(w, false);
    case Cleared => a := Proceed(w);
    case Starting => a := Begin(w, false);
    case InRun => a := Return(w, NoReport);
    case Ran(o) =>
      a := Record(w, false);
      match o { case Success => case Failure => case Skip => }
    case Recorded(o) =>
      a := Count(w);
      match o { case Success => case Failure => case Skip => }
    case Counted(o) =>
      a := Store(w, false);
      match o { case Success => case Failure => case Skip => }
    case StopSeen => a := RaiseFlag(w);
    case StopFlagged => a := CountSkip(w);
    case StopCounted => a := RecordSkip(w, false);
  }

  lemma ShutdownIsNotStuck(s: State) returns (a: Action)
    requires Inv(s) && Alive(s.phase) && s.cancelled
    ensures PoolStep(a) && Enabled(s, a)
  {
    if s.phase.Loading? {
      a := FailLoad(false);
    } else if s.phase.Sending? {
      a := Close;
    } else if w: nat :| w < |s.workers| && s.workers[w].Busy? {
      a := BusyCanMoveOn(s, w);
    } else if w: nat :| w < |s.workers| && s.workers[w].Idle? {
      a := Leave(w);
    } else {
      a := Finish(false);
    }
  }

  lemma PoolStepStaysShutDown(s: State, a: Action)
    requires Enabled(s, a) && PoolStep(a) && Alive(s.phase) && s.cancelled
    ensures Apply(s, a).cancelled && (Alive(Apply(s, a).phase) || Apply(s, a).phase.Ended?)
  {
  }

  lemma EndedTakesNoStep(s: State, a: Action)
    requires s.phase.Ended? && PoolStep(a)
    ensures !Enabled(s, a)
  {
  }

  ghost predicate NoPoolStep(s: State) {
    forall a :: PoolStep(a) ==> !Enabled(s, a)
  }

  /** After a shutdown the pool comes to its end as well, in at most so many steps, whatever writes fail. */
  lemma {:induction false} ShutdownEndsThePool(s: State, actions: seq<Action>)
    requires Inv(s) && Alive(s.phase) && s.cancelled
    requires CanRun(s, actions) && forall i :: 0 <= i < |actions| ==> PoolStep(actions[i])
    ensures |actions| <= Remaining(s)
    ensures NoPoolStep(RunFrom(s, actions)) <==> RunFrom(s, actions).phase.Ended?
    decreases |actions|
  {
    if actions == [] {
      var a := ShutdownIsNotStuck(s);
      assert PoolStep(a) && Enabled(s, a);
    } else {
      var a, t := actions[0], Apply(s, actions[0]);
      assert PoolStep(a);
      PoolStepShortens(s, a);
      PoolStepStaysShutDown(s, a);
      if Alive(t.phase) {
        StepKeeps(s, a);
        ShutdownEndsThePool(t, actions[1..]);
      } else {
        forall b | PoolStep(b) ensures !Enabled(t, b) {
          EndedTakesNoStep(t, b);
        }
        if actions[1..] != [] {
          EndedTakesNoStep(t, actions[1]);
        }
      }
    }
  }
}

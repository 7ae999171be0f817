/**
 * What holds in every state the worker pool can reach, whatever the interleaving:
 * items are conserved, counters agree with rows, a stop request bounds what still
 * runs, and the terminal status says what happened.
 */
module JobPoolProof {
  import opened JobPool

  datatype Kind = InSuccess | InFailed | InSkipped | StoredSuccess | StoredFailed | InHand | Uncounted | Unsent | Lost | MayRun | Flagged

  predicate Holding(p: Place) {
    !p.Waiting? && !p.Finished? && !p.StopSkipped? && !p.Dropped?
  }

  predicate Is(p: Place, k: Kind) {
    match k
    case InSuccess => p == Counted(Success) || p == Finished(Success)
    case InFailed => p == Counted(Failure) || p == Finished(Failure)
    case InSkipped => p == Counted(Skip) || p == Finished(Skip) || p.StopCounted? || p.StopSkipped?
    case StoredSuccess => p == Finished(Success)
    case StoredFailed => p == Finished(Failure)
    case InHand => Holding(p)
    case Uncounted => Holding(p) && !p.Counted? && !p.StopCounted?
    case Unsent => p.Waiting?
    case Lost => p.Dropped?
    case MayRun => p.Cleared? || p.Starting?
    case Flagged => p.StopFlagged? || p.StopCounted? || p.StopSkipped?
  }

  /** How many items stand at a place of kind k. */
  function Tally(place: seq<Place>, k: Kind): nat {
    if place == [] then 0 else Tally(place[1..], k) + if Is(place[0], k) then 1 else 0
  }

  function BusyCount(workers: seq<Worker>): nat {
    if workers == [] then 0 else BusyCount(workers[1..]) + if workers[0].Busy? then 1 else 0
  }

  // ---------- counting ----------

  lemma {:induction false} TallyUpdate(place: seq<Place>, i: nat, p: Place, k: Kind)
    requires i < |place|
    ensures Tally(place[i := p], k) == Tally(place, k) - (if Is(place[i], k) then 1 else 0) + (if Is(p, k) then 1 else 0)
  {
    if i == 0 {
      assert place[0 := p][1..] == place[1..];
    } else {
      assert place[i := p][1..] == place[1..][i - 1 := p];
      TallyUpdate(place[1..], i - 1, p, k);
    }
  }

  lemma {:induction false} BusyUpdate(workers: seq<Worker>, w: nat, v: Worker)
    requires w < |workers|
    ensures BusyCount(workers[w := v]) == BusyCount(workers) - (if workers[w].Busy? then 1 else 0) + (if v.Busy? then 1 else 0)
  {
    if w == 0 {
      assert workers[0 := v][1..] == workers[1..];
    } else {
      assert workers[w := v][1..] == workers[1..][w - 1 := v];
      BusyUpdate(workers[1..], w - 1, v);
    }
  }

  lemma {:induction false} BusyAtMost(workers: seq<Worker>)
    ensures BusyCount(workers) <= |workers|
    ensures (forall w :: 0 <= w < |workers| ==> !workers[w].Busy?) ==> BusyCount(workers) == 0
  {
    if workers != [] { BusyAtMost(workers[1..]); }
  }

  lemma {:induction false} TallyNone(place: seq<Place>, k: Kind)
    ensures Tally(place, k) == 0 <==> forall i :: 0 <= i < |place| ==> !Is(place[i], k)
  {
    if place != [] {
      TallyNone(place[1..], k);
      assert forall i :: 1 <= i < |place| ==> place[i] == place[1..][i - 1];
      if Tally(place, k) == 0 {
        forall i | 0 <= i < |place| ensures !Is(place[i], k) {
          if i > 0 { assert place[i] == place[1..][i - 1]; }
        }
      }
    }
  }

  lemma {:induction false} MayRunIsInHand(place: seq<Place>)
    ensures Tally(place, MayRun) <= Tally(place, InHand)
  {
    if place != [] { MayRunIsInHand(place[1..]); }
  }

  /** Every item is in exactly one of six situations. */
  lemma {:induction false} Partition(place: seq<Place>)
    ensures Tally(place, InSuccess) + Tally(place, InFailed) + Tally(place, InSkipped)
          + Tally(place, Uncounted) + Tally(place, Unsent) + Tally(place, Lost) == |place|
  {
    if place != [] {
      Partition(place[1..]);
      if place[0].Counted? || place[0].Finished? {
        match place[0].outcome { case Success => case Failure => case Skip => }
      }
    }
  }

  // ---------- the invariant ----------

  /** Items are sent in order; a busy worker holds an item nobody else holds. */
  predicate Hands(workers: seq<Worker>, place: seq<Place>, sent: nat) {
    && (forall i :: 0 <= i < |place| ==> (place[i].Waiting? <==> i >= sent))
    && (forall w :: 0 <= w < |workers| && workers[w].Busy? ==> workers[w].item < |place| && Holding(place[workers[w].item]))
    && (forall v, w :: 0 <= v < w < |workers| && workers[v].Busy? && workers[w].Busy? ==> workers[v].item != workers[w].item)
    && Tally(place, InHand) == BusyCount(workers)
  }

  predicate Begun(p: Place) {
    p.InRun? || p.Ran? || p.Recorded? || p.Counted? || p.Finished?
  }

  predicate RunsAgree(runs: seq<nat>, place: seq<Place>) {
    |runs| == |place| && forall i :: 0 <= i < |place| ==> runs[i] == if Begun(place[i]) then 1 else 0
  }

  predicate CountersAgree(b: Books, place: seq<Place>) {
    && b.success == Tally(place, InSuccess)
    && b.failed == Tally(place, InFailed)
    && b.skipped == Tally(place, InSkipped)
    && (b.stopped <==> Tally(place, Flagged) > 0)
  }

  /** Where an item stands says what its row says. */
  function RowAt(p: Place): RowStatus {
    match p
    case Waiting | Received | Cleared | Starting | StopSeen | StopFlagged | StopCounted | Dropped => RowPending
    case InRun | Ran(_) => RowRunning
    case Recorded(o) => RowOf(o)
    case Counted(o) => RowOf(o)
    case Finished(o) => RowOf(o)
    case StopSkipped => RowSkipped
  }

  /** As long as no write failed, the stored counters and rows are what the items say. */
  predicate StoreAgrees(b: Books, place: seq<Place>) {
    && |b.rows| == |place|
    && (b.faults == 0 ==>
          && b.storedSuccess == Tally(place, StoredSuccess)
          && b.storedFailed == Tally(place, StoredFailed)
          && forall i :: 0 <= i < |place| ==> b.rows[i] == RowAt(place[i]))
  }

  predicate PhaseFits(s: State) {
    && s.starts <= 1 && s.sent <= |s.place|
    && (s.phase.Unstarted? ==> s.starts == 0)
    && (s.starts == 0 ==> s.sent == 0)
    && (s.starts == 0 ==> (s.status.Pending? || s.status.Stopping? || s.status.Interrupted?) && (s.phase.Unstarted? || s.phase.Dead?))
    && (s.starts == 1 ==> !s.status.Pending?)
    && (s.watch.landed ==> s.starts == 1)
    && (Alive(s.phase) ==> s.status.Running? || s.status.Stopping?)
    && (Terminal(s.status) ==> s.phase.Ended? || s.phase.Dead?)
    && (s.phase.Closed? && s.sent < |s.place| ==> s.cancelled)
    && (!s.cancelled ==> Tally(s.place, Lost) == 0)
    && ((s.phase.Unstarted? || s.phase.Loading?) ==> s.sent == 0 && forall w :: 0 <= w < |s.workers| ==> s.workers[w].Idle?)
  }

  /** After a stop request landed on a running job: what ran, what may yet run, and the failed looks that let it. */
  predicate StopBounds(s: State) {
    s.watch.landed ==>
      && (Alive(s.phase) ==> s.status.Stopping?)
      && s.watch.runs + Tally(s.place, MayRun) <= |s.workers| + s.watch.blind
  }

  predicate Inv(s: State) {
    && Hands(s.workers, s.place, s.sent)
    && RunsAgree(s.runs, s.place)
    && CountersAgree(s.books, s.place)
    && StoreAgrees(s.books, s.place)
    && PhaseFits(s)
    && StopBounds(s)
  }

  lemma InitialInv(n: nat, workers: nat)
    ensures Inv(Initial(n, workers))
  {
    var s := Initial(n, workers);
    forall k: Kind | k != Unsent ensures Tally(s.place, k) == 0 { TallyNone(s.place, k); }
    BusyAtMost(s.workers);
  }

  // ---------- one step of one worker ----------

  function One(p: Place, k: Kind): nat {
    if Is(p, k) then 1 else 0
  }

  lemma HandsMove(workers: seq<Worker>, place: seq<Place>, sent: nat, w: nat, q: Place, next: Worker)
    requires Hands(workers, place, sent) && w < |workers| && workers[w].Busy?
    requires !q.Waiting? && (if Holding(q) then next == workers[w] else !next.Busy?)
    ensures Hands(workers[w := next], place[workers[w].item := q], sent)
  {
    var i := workers[w].item;
    TallyUpdate(place, i, q, InHand);
    BusyUpdate(workers, w, next);
    var place2, workers2 := place[i := q], workers[w := next];
    forall v | 0 <= v < |workers2| && workers2[v].Busy? ensures workers2[v].item < |place2| && Holding(place2[workers2[v].item]) {
      if v != w {
        assert workers2[v] == workers[v];
        assert workers[v].item != i;
      }
    }
  }

  /** The books follow an item that goes from p to q. */
  ghost predicate BooksFollow(b: Books, c: Books, i: nat, p: Place, q: Place) {
    && |c.rows| == |b.rows|
    && c.success + One(p, InSuccess) == b.success + One(q, InSuccess)
    && c.failed + One(p, InFailed) == b.failed + One(q, InFailed)
    && c.skipped + One(p, InSkipped) == b.skipped + One(q, InSkipped)
    && One(p, Flagged) <= One(q, Flagged) && (c.stopped <==> b.stopped || Is(q, Flagged))
    && c.faults >= b.faults
    && (c.faults == 0 ==>
          && c.storedSuccess + One(p, StoredSuccess) == b.storedSuccess + One(q, StoredSuccess)
          && c.storedFailed + One(p, StoredFailed) == b.storedFailed + One(q, StoredFailed)
          && (i < |b.rows| ==> c.rows == b.rows[i := RowAt(q)]))
  }

  ghost predicate RowFits(b: Books, i: nat, p: Place) {
    i < |b.rows| && (b.faults == 0 ==> b.rows[i] == RowAt(p))
  }

  lemma QuietBooks(b: Books, i: nat, p: Place, q: Place)
    requires RowFits(b, i, p) && RowAt(q) == RowAt(p)
    requires (p.Received? && (q.StopSeen? || q.Cleared?)) || (p.Cleared? && (q.Dropped? || q.Starting?)) || (p.InRun? && q.Ran?)
    ensures BooksFollow(b, b, i, p, q)
  {
    assert b.rows[i := b.rows[i]] == b.rows;
  }

  lemma BeginBooks(b: Books, i: nat, ok: bool)
    requires RowFits(b, i, Starting)
    ensures BooksFollow(b, WriteRow(b, i, RowRunning, ok), i, Starting, InRun)
  {
  }

  lemma RecordBooks(b: Books, i: nat, o: Outcome, ok: bool)
    requires RowFits(b, i, Ran(o))
    ensures BooksFollow(b, WriteRow(b, i, RowOf(o), ok), i, Ran(o), Recorded(o))
  {
  }

  lemma CountBooks(b: Books, i: nat, o: Outcome)
    requires RowFits(b, i, Recorded(o))
    ensures BooksFollow(b, CountOutcome(b, o), i, Recorded(o), Counted(o))
  {
    assert b.rows[i := b.rows[i]] == b.rows;
  }

  lemma StoreBooks(b: Books, i: nat, o: Outcome, ok: bool)
    requires RowFits(b, i, Counted(o))
    ensures BooksFollow(b, StoreOutcome(b, o, ok), i, Counted(o), Finished(o))
  {
    assert b.rows[i := b.rows[i]] == b.rows;
  }

  lemma SkipBooks(b: Books, i: nat, ok: bool)
    ensures RowFits(b, i, StopSeen) ==> BooksFollow(b, b.(stopped := true), i, StopSeen, StopFlagged)
    ensures RowFits(b, i, StopFlagged) && b.stopped ==> BooksFollow(b, b.(skipped := b.skipped + 1), i, StopFlagged, StopCounted)
    ensures RowFits(b, i, StopCounted) && b.stopped ==> BooksFollow(b, WriteRow(b, i, RowSkipped, ok), i, StopCounted, StopSkipped)
  {
    if i < |b.rows| { assert b.rows[i := b.rows[i]] == b.rows; }
  }

  lemma BooksStayRight(b: Books, c: Books, place: seq<Place>, i: nat, q: Place)
    requires CountersAgree(b, place) && StoreAgrees(b, place) && i < |place|
    requires BooksFollow(b, c, i, place[i], q)
    ensures CountersAgree(c, place[i := q]) && StoreAgrees(c, place[i := q])
  {
    TallyUpdate(place, i, q, InSuccess);
    TallyUpdate(place, i, q, InFailed);
    TallyUpdate(place, i, q, InSkipped);
    TallyUpdate(place, i, q, Flagged);
    TallyNone(place, Flagged);
    TallyUpdate(place, i, q, StoredSuccess);
    TallyUpdate(place, i, q, StoredFailed);
  }

  /** Everything but the books follows the worker's move. */
  ghost predicate Follows(s: State, t: State, w: nat, q: Place, next: Worker)
    requires w < |s.workers| && s.workers[w].Busy? && s.workers[w].item < |s.place|
  {
    var i := s.workers[w].item;
    var p := s.place[i];
    && t == s.(place := s.place[i := q], workers := s.workers[w := next], runs := t.runs, reports := t.reports, books := t.books, watch := t.watch)
    && !q.Waiting? && (if Holding(q) then next == s.workers[w] else !next.Busy?)
    && (i < |s.runs| ==> t.runs == if Begun(q) && !Begun(p) then s.runs[i := s.runs[i] + 1] else s.runs)
    && (Begun(p) ==> Begun(q))
    && (Is(q, Lost) ==> s.cancelled)
    && t.watch.landed == s.watch.landed
    && (s.watch.landed ==>
          t.watch.runs + One(q, MayRun) + s.watch.blind <= s.watch.runs + One(p, MayRun) + t.watch.blind)
  }

  lemma FollowsKeeps(s: State, t: State, w: nat, q: Place, next: Worker)
    requires Inv(s) && (s.phase.Sending? || s.phase.Closed?)
    requires w < |s.workers| && s.workers[w].Busy? && Follows(s, t, w, q, next)
    requires BooksFollow(s.books, t.books, s.workers[w].item, s.place[s.workers[w].item], q)
    ensures Inv(t)
  {
    var i := s.workers[w].item;
    BooksStayRight(s.books, t.books, s.place, i, q);
    HandsMove(s.workers, s.place, s.sent, w, q, next);
    TallyUpdate(s.place, i, q, Lost);
    TallyUpdate(s.place, i, q, MayRun);
  }

  /** The worker asks, looks at its context, or is inside the runner. */
  predicate EarlyStep(a: Action) {
    a.Check? || a.Proceed? || a.Begin? || a.Return?
  }

  /** The worker books an outcome. */
  predicate BookingStep(a: Action) {
    a.Record? || a.Count? || a.Store?
  }

  /** The worker skips an item because of a stop request. */
  predicate SkipStep(a: Action) {
    a.RaiseFlag? || a.CountSkip? || a.RecordSkip?
  }

  predicate WorkerStep(a: Action) {
    EarlyStep(a) || BookingStep(a) || SkipStep(a)
  }

  lemma StatusReadFollows(s: State, a: Action)
    requires Enabled(s, a) && (a.Check? || a.Proceed?) && (s.watch.landed ==> s.status.Stopping?)
    ensures var t := Apply(s, a); Follows(s, t, a.w, t.place[s.workers[a.w].item], t.workers[a.w])
  {
    assert s.workers[a.w := s.workers[a.w]] == s.workers;
  }

  lemma RunStepFollows(s: State, a: Action)
    requires Enabled(s, a) && (a.Begin? || a.Return?)
    ensures var t := Apply(s, a); Follows(s, t, a.w, t.place[s.workers[a.w].item], t.workers[a.w])
  {
    assert s.workers[a.w := s.workers[a.w]] == s.workers;
  }

  lemma EarlyStepFollows(s: State, a: Action)
    requires Enabled(s, a) && EarlyStep(a) && (s.watch.landed ==> s.status.Stopping?)
    ensures var t := Apply(s, a); Follows(s, t, a.w, t.place[s.workers[a.w].item], t.workers[a.w])
  {
    if a.Check? || a.Proceed? {
      StatusReadFollows(s, a);
    } else {
      RunStepFollows(s, a);
    }
  }

  lemma BookingStepFollows(s: State, a: Action)
    requires Enabled(s, a) && BookingStep(a)
    ensures var t := Apply(s, a); Follows(s, t, a.w, t.place[s.workers[a.w].item], t.workers[a.w])
  {
    assert s.workers[a.w := s.workers[a.w]] == s.workers;
  }

  lemma SkipStepFollows(s: State, a: Action)
    requires Enabled(s, a) && SkipStep(a)
    ensures var t := Apply(s, a); Follows(s, t, a.w, t.place[s.workers[a.w].item], t.workers[a.w])
  {
    assert s.workers[a.w := s.workers[a.w]] == s.workers;
  }

  ghost predicate StepBooks(s: State, a: Action)
    requires Enabled(s, a) && WorkerStep(a)
  {
    var i := s.workers[a.w].item;
    BooksFollow(s.books, Apply(s, a).books, i, s.place[i], Apply(s, a).place[i])
  }

  lemma EarlyStepBooks(s: State, a: Action)
    requires Enabled(s, a) && EarlyStep(a) && RowFits(s.books, s.workers[a.w].item, s.place[s.workers[a.w].item])
    ensures StepBooks(s, a)
  {
    var i := s.workers[a.w].item;
    if a.Begin? { BeginBooks(s.books, i, a.ok); } else { QuietBooks(s.books, i, s.place[i], Apply(s, a).place[i]); }
  }

  lemma BookingStepBooks(s: State, a: Action)
    requires Enabled(s, a) && BookingStep(a) && RowFits(s.books, s.workers[a.w].item, s.place[s.workers[a.w].item])
    ensures StepBooks(s, a)
  {
    var i := s.workers[a.w].item;
    var o := s.place[i].outcome;
    match a {
      case Record(_, ok) => RecordBooks(s.books, i, o, ok);
      case Count(_) => CountBooks(s.books, i, o);
      case Store(_, ok) => StoreBooks(s.books, i, o, ok);
    }
  }

  lemma SkipStepBooks(s: State, a: Action)
    requires Enabled(s, a) && SkipStep(a) && RowFits(s.books, s.workers[a.w].item, s.place[s.workers[a.w].item])
    requires Is(s.place[s.workers[a.w].item], Flagged) ==> s.books.stopped
    ensures StepBooks(s, a)
  {
    SkipBooks(s.books, s.workers[a.w].item, a.RecordSkip? && a.ok);
  }

  lemma WorkerStepKeeps(s: State, a: Action)
    requires Inv(s) && Enabled(s, a) && WorkerStep(a)
    ensures Inv(Apply(s, a))
  {
    WorkerKnows(s, a.w);
    if EarlyStep(a) {
      EarlyStepFollows(s, a);
      EarlyStepBooks(s, a);
    } else if BookingStep(a) {
      BookingStepFollows(s, a);
      BookingStepBooks(s, a);
    } else {
      SkipStepFollows(s, a);
      SkipStepBooks(s, a);
    }
    var t := Apply(s, a);
    FollowsKeeps(s, t, a.w, t.place[s.workers[a.w].item], t.workers[a.w]);
  }

  lemma WorkerKnows(s: State, w: nat)
    requires Inv(s) && Alive(s.phase) && w < |s.workers| && s.workers[w].Busy?
    ensures s.workers[w].item < |s.place|
    ensures RowFits(s.books, s.workers[w].item, s.place[s.workers[w].item])
    ensures Is(s.place[s.workers[w].item], Flagged) ==> s.books.stopped
    ensures s.watch.landed ==> s.status.Stopping?
  {
    TallyNone(s.place, Flagged);
  }

  // ---------- the other steps ----------

  lemma SendKeepsHands(s: State, w: nat)
    requires Inv(s) && Enabled(s, Send(w))
    ensures Hands(s.workers[w := Busy(s.sent)], s.place[s.sent := Received], s.sent + 1)
  {
    TallyUpdate(s.place, s.sent, Received, InHand);
    BusyUpdate(s.workers, w, Busy(s.sent));
  }

  lemma SendKeepsBooks(s: State)
    requires Inv(s) && s.sent < |s.place|
    ensures CountersAgree(s.books, s.place[s.sent := Received]) && StoreAgrees(s.books, s.place[s.sent := Received])
    ensures Tally(s.place[s.sent := Received], Lost) == Tally(s.place, Lost)
    ensures Tally(s.place[s.sent := Received], MayRun) == Tally(s.place, MayRun)
  {
    assert s.books.rows[s.sent := s.books.rows[s.sent]] == s.books.rows;
    BooksStayRight(s.books, s.books, s.place, s.sent, Received);
    TallyUpdate(s.place, s.sent, Received, Lost);
    TallyUpdate(s.place, s.sent, Received, MayRun);
  }

  lemma SendKeeps(s: State, a: Action)
    requires Inv(s) && Enabled(s, a) && a.Send?
    ensures Inv(Apply(s, a))
  {
    SendKeepsHands(s, a.w);
    SendKeepsBooks(s);
  }

  lemma LeaveKeeps(s: State, a: Action)
    requires Inv(s) && Enabled(s, a) && a.Leave?
    ensures Inv(Apply(s, a))
  {
    BusyUpdate(s.workers, a.w, Gone);
  }

  lemma StopKeeps(s: State, a: Action)
    requires Inv(s) && Enabled(s, a) && a.RequestStop?
    ensures Inv(Apply(s, a))
  {
    MayRunIsInHand(s.place);
    BusyAtMost(s.workers);
  }

  lemma JobStepKeeps(s: State, a: Action)
    requires Inv(s) && Enabled(s, a)
    requires a.TryStart? || a.Load? || a.FailLoad? || a.Close? || a.Finish? || a.Shutdown? || a.Crash? || a.Reap?
    ensures Inv(Apply(s, a))
  {
  }

  /** Every step of every interleaving keeps the invariant. */
  lemma StepKeeps(s: State, a: Action)
    requires Inv(s) && Enabled(s, a)
    ensures Inv(Apply(s, a))
  {
    if WorkerStep(a) {
      WorkerStepKeeps(s, a);
    } else {
      match a {
        case Send(_) => SendKeeps(s, a);
        case Leave(_) => LeaveKeeps(s, a);
        case RequestStop => StopKeeps(s, a);
        case _ => JobStepKeeps(s, a);
      }
    }
  }

  lemma {:induction false} RunKeeps(s: State, actions: seq<Action>)
    requires Inv(s) && CanRun(s, actions)
    ensures Inv(RunFrom(s, actions))
    decreases |actions|
  {
    if actions != [] {
      StepKeeps(s, actions[0]);
      RunKeeps(Apply(s, actions[0]), actions[1..]);
    }
  }
}

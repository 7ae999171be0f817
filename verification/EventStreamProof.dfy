/** Every step of the event stream keeps its invariant. */
module EventStreamProof {
  import opened EventStream

  // ---------- numbers ----------

  lemma MaxOfAppend(log: seq<nat>, n: nat)
    ensures MaxOf(log + [n]) == if MaxOf(log) < n then n else MaxOf(log)
  {
    var all := log + [n];
    assert all[|log|] == n;
    if log != [] {
      var i :| 0 <= i < |log| && log[i] == MaxOf(log);
      assert all[i] == MaxOf(log);
    }
    var j :| 0 <= j < |all| && all[j] == MaxOf(all);
    if j < |log| {
      assert all[j] == log[j];
    }
  }

  lemma InFlightKept(s: State, a: Action)
    requires Enabled(s, a) && InFlight(s)
    ensures InFlight(Apply(s, a))
  {
  }

  lemma NumberingKeptByInsert(s: State, e: nat, ok: bool)
    requires Enabled(s, Insert(e, ok)) && InFlight(s) && Numbering(s)
    ensures Numbering(Apply(s, Insert(e, ok)))
  {
    var n, t := s.emitters[e].num, Apply(s, Insert(e, ok));
    MaxOfAppend(s.log, n);
    forall f | 0 <= f < |t.emitters| && t.emitters[f].Numbered? ensures t.emitters[f].num !in t.log {
      assert t.emitters[f] == s.emitters[f];
    }
  }

  lemma NumberingKeptByTake(s: State, e: nat, ok: bool)
    requires Enabled(s, Take(e, ok)) && InFlight(s) && Numbering(s) && !Apply(s, Take(e, ok)).low
    ensures Numbering(Apply(s, Take(e, ok)))
  {
    var t := Apply(s, Take(e, ok));
    assert MaxOf(s.log) < t.counter.value;
    forall f | 0 <= f < |t.emitters| && t.emitters[f].Numbered? ensures t.emitters[f].num !in t.log {
      if f != e {
        assert t.emitters[f] == s.emitters[f];
      }
    }
  }

  /** Nobody else puts a number on its way. */
  lemma EmittersOnlyFinish(s: State, a: Action)
    requires Enabled(s, a) && !a.Take? && !a.Insert?
    ensures var t := Apply(s, a);
            && |t.emitters| == |s.emitters|
            && forall f :: 0 <= f < |t.emitters| ==> t.emitters[f] == s.emitters[f] || t.emitters[f].Quiet?
  {
  }

  lemma NumberingKept(s: State, a: Action)
    requires Enabled(s, a) && !Apply(s, a).low && InFlight(s) && Numbering(s)
    ensures Numbering(Apply(s, a))
  {
    match a
    case Insert(e, ok) => NumberingKeptByInsert(s, e, ok);
    case Take(e, ok) => NumberingKeptByTake(s, e, ok);
    case _ =>
      LogShape(s, a);
      EmittersOnlyFinish(s, a);
  }

  lemma AloneKeptByInsert(s: State, e: nat, ok: bool)
    requires Enabled(s, Insert(e, ok)) && |s.emitters| == 1 && Alone(s)
    ensures Alone(Apply(s, Insert(e, ok)))
  {
    var n, t := s.emitters[e].num, Apply(s, Insert(e, ok));
    MaxOfAppend(s.log, n);
    assert forall i :: 0 <= i < |s.log| ==> s.log[i] < n;
    assert !t.emitters[0].Numbered?;
  }

  lemma AloneKept(s: State, a: Action)
    requires Enabled(s, a) && !Apply(s, a).low && Numbering(s) && |s.emitters| == 1 && Alone(s)
    ensures Alone(Apply(s, a))
  {
    match a
    case Insert(e, ok) => AloneKeptByInsert(s, e, ok);
    case _ =>
  }

  /** An insert that succeeds appends its emitter's number; nothing else touches the log. */
  lemma LogShape(s: State, a: Action)
    requires Enabled(s, a)
    ensures var t := Apply(s, a);
            if a.Insert? && a.ok && s.emitters[a.e].num !in s.log
            then t.log == s.log + [s.emitters[a.e].num]
            else t.log == s.log
  {
  }

  lemma LogKept(s: State, a: Action)
    requires Enabled(s, a) && Distinct(s.log)
    ensures var t := Apply(s, a);
            && Distinct(t.log) && (Increasing(t.log) ==> Increasing(s.log))
            && s.log <= t.log
  {
    LogShape(s, a);
    var t := Apply(s, a);
    if Increasing(t.log) {
      assert forall i :: 0 <= i < |s.log| ==> t.log[i] == s.log[i];
    }
  }

  lemma PositiveKept(s: State, a: Action)
    requires Enabled(s, a) && Positive(s)
    ensures Positive(Apply(s, a))
  {
  }

  // ---------- readers ----------

  /** Rows past `last` start at index `k`; if the batch agrees with them up to `i`, it agrees at `i`. */
  lemma BatchTakesTheNext(log: seq<nat>, k: nat, last: nat, batch: seq<nat>, i: nat)
    requires Increasing(log) && IsBatch(log, last, batch) && i < |batch|
    requires forall j :: 0 <= j < |log| ==> (log[j] > last <==> j >= k)
    requires k + i <= |log| && forall p :: 0 <= p < i ==> batch[p] == log[k + p]
    ensures k + i < |log| && batch[i] == log[k + i]
  {
    assert batch[i] in log && batch[i] > last;
    var j :| 0 <= j < |log| && log[j] == batch[i];
    assert forall q :: k <= q < k + i ==> log[q] == batch[q - k];
    assert j >= k + i;
    var n := log[k + i];
    assert n in log && batch[i] <= batch[|batch| - 1];
    assert n in batch ==> n >= batch[i];
  }

  /** In an increasing log a query from a prefix's end returns the elements that follow the prefix. */
  lemma BatchFollows(log: seq<nat>, seen: seq<nat>, last: nat, batch: seq<nat>)
    requires Increasing(log) && seen <= log
    requires forall j :: 0 <= j < |log| ==> 1 <= log[j]
    requires last == if seen == [] then 0 else seen[|seen| - 1]
    requires IsBatch(log, last, batch)
    ensures seen + batch <= log
  {
    var k := |seen|;
    assert seen != [] ==> last == log[k - 1];
    assert forall j :: 0 <= j < |log| ==> (log[j] > last <==> j >= k);
    var i := 0;
    while i < |batch|
      invariant i <= |batch| && k + i <= |log|
      invariant forall p :: 0 <= p < i ==> batch[p] == log[k + p]
    {
      BatchTakesTheNext(log, k, last, batch, i);
      i := i + 1;
    }
  }

  lemma JoinedIncreasing(seen: seq<nat>, batch: seq<nat>)
    requires Increasing(seen) && Increasing(batch)
    requires seen != [] ==> forall i :: 0 <= i < |batch| ==> batch[i] > seen[|seen| - 1]
    ensures Increasing(seen + batch)
  {
    var all := seen + batch;
    forall i, j | 0 <= i < j < |all| ensures all[i] < all[j] {
      if i < |seen| <= j {
        assert seen[i] <= seen[|seen| - 1] < batch[j - |seen|];
      }
    }
  }

  lemma ShortBatchIsAll(log: seq<nat>, last: nat, batch: seq<nat>, n: nat)
    requires IsBatch(log, last, batch) && |batch| != BATCH && n in log
    ensures n <= if batch == [] then last else batch[|batch| - 1]
  {
    if n > last {
      var i :| 0 <= i < |batch| && batch[i] == n;
      assert batch[i] <= batch[|batch| - 1];
    }
  }

  lemma ReadKept(log: seq<nat>, emitters: seq<Emitter>, r: Reader, batch: seq<nat>)
    requires r.pc.Reading? && Progress(log, r) && IsBatch(log, r.lastSeq, batch)
    ensures var q := r.(pc := AfterSending(batch, |batch| == BATCH));
            WakeupsPending(log, emitters, q) && Progress(log, q)
  {
    var q := r.(pc := AfterSending(batch, |batch| == BATCH));
    if Settling(q.pc) {
      forall n | n in log ensures n <= Horizon(q) {
        ShortBatchIsAll(log, r.lastSeq, batch, n);
      }
    }
    assert Ahead(r) == r.received;
    assert Ahead(q) == r.received + batch;
    JoinedIncreasing(r.received, batch);
  }

  lemma SendKept(log: seq<nat>, emitters: seq<Emitter>, r: Reader)
    requires r.pc.Sending? && Progress(log, r) && WakeupsPending(log, emitters, r)
    ensures var x := r.pc.rest;
            var q := r.(lastSeq := x[0], received := r.received + [x[0]], pc := AfterSending(x[1..], r.pc.full));
            WakeupsPending(log, emitters, q) && Progress(log, q) && Ahead(q) == Ahead(r)
  {
    var x := r.pc.rest;
    var q := r.(lastSeq := x[0], received := r.received + [x[0]], pc := AfterSending(x[1..], r.pc.full));
    assert x == [x[0]] + x[1..];
    assert Ahead(q) == Ahead(r);
    assert Settling(q.pc) ==> Settling(r.pc) && Horizon(q) == Horizon(r);
  }

  /** The log growing, and the emitters moving, disturb no reader as long as a stored number gets its Notify. */
  lemma WakeupsKept(s: State, a: Action, r: Reader)
    requires Enabled(s, a) && (a.Take? || a.Insert? || a.Dispose?)
    requires WakeupsPending(s.log, s.emitters, r)
    ensures WakeupsPending(Apply(s, a).log, Apply(s, a).emitters, r)
  {
    var t := Apply(s, a);
    if Settling(r.pc) && !r.token {
      forall n | n in t.log && n > Horizon(r) ensures AboutToNotify(t.emitters, n) {
        if n in s.log {
          var f :| 0 <= f < |s.emitters| && s.emitters[f] == Inserted(n);
          assert t.emitters[f] == Inserted(n);
        } else {
          assert t.emitters[a.e] == Inserted(n);
        }
      }
    }
  }

  ghost predicate ReaderOk(s: State, r: Reader) {
    && WakeupsPending(s.log, s.emitters, r)
    && Progress(s.log, r)
    && (Increasing(s.log) ==> Ahead(r) <= s.log)
  }

  /** Dropping the batch or moving between the other program points keeps what was received. */
  lemma QuietReaderKept(log: seq<nat>, x: Reader, y: Reader)
    requires Progress(log, x) && !y.pc.Sending?
    requires (y.received == x.received && y.lastSeq == x.lastSeq) || (y.received == [] && y.lastSeq == 0)
    ensures Progress(log, y) && Ahead(y) <= Ahead(x)
  {
    assert Ahead(x)[..|x.received|] == x.received;
    assert forall i :: 0 <= i < |Ahead(y)| ==> Ahead(y)[i] == Ahead(x)[i];
  }

  /** Only the reader named by the action moves; a Notify, a stop or a restart move all of them alike. */
  lemma ReaderShape(s: State, a: Action, r: nat)
    requires Enabled(s, a) && r < |s.readers|
    ensures var t := Apply(s, a);
            && |t.readers| == |s.readers|
            && var x, y := s.readers[r], t.readers[r];
               match a
               case Read(q, batch) => y == if q == r then x.(pc := AfterSending(batch, |batch| == BATCH)) else x
               case SendOne(q) =>
                 y == if q == r
                      then x.(lastSeq := x.pc.rest[0], received := x.received + [x.pc.rest[0]],
                              pc := AfterSending(x.pc.rest[1..], x.pc.full))
                      else x
               case Notify(_) => y == if Awake(x.pc) then x.(token := true) else x
               case NotifyOnly => y == if Awake(x.pc) then x.(token := true) else x
               case Restart => y == x.(pc := Off, token := false)
               case Connect(q, fromStart) =>
                 y == if q != r then x
                      else if fromStart then Reader(Reading, 0, false, [])
                      else x.(pc := Reading, token := false)
               case Park(q) => y == if q == r then x.(pc := Parked) else x
               case Wake(q, signal) =>
                 y == if q == r then x.(pc := Reading, token := if signal then false else x.token) else x
               case Disconnect(q) => y == if q == r then x.(pc := Off, token := false) else x
               case _ => y == x
  {
  }

  lemma WakeupsKeptOnMove(s: State, a: Action, r: nat)
    requires Enabled(s, a) && r < |s.readers|
    requires !a.Read? && !a.SendOne? && !a.Take? && !a.Insert? && !a.Dispose?
    requires WakeupsPending(s.log, s.emitters, s.readers[r])
    ensures |Apply(s, a).readers| == |s.readers|
    ensures WakeupsPending(Apply(s, a).log, Apply(s, a).emitters, Apply(s, a).readers[r])
  {
    ReaderShape(s, a, r);
    LogShape(s, a);
  }

  lemma ProgressGrows(log: seq<nat>, more: seq<nat>, r: Reader)
    requires Progress(log, r) && log <= more
    ensures Progress(more, r)
  {
    forall i | 0 <= i < |Ahead(r)| ensures Ahead(r)[i] in more {
      var j :| 0 <= j < |log| && log[j] == Ahead(r)[i];
      assert more[j] == log[j];
    }
  }

  lemma ReadStaysInOrder(s: State, r: Reader, batch: seq<nat>)
    requires r.pc.Reading? && Progress(s.log, r) && IsBatch(s.log, r.lastSeq, batch)
    requires Increasing(s.log) ==> Ahead(r) <= s.log
    requires forall j :: 0 <= j < |s.log| ==> 1 <= s.log[j]
    ensures Increasing(s.log) ==> Ahead(r.(pc := AfterSending(batch, |batch| == BATCH))) <= s.log
  {
    assert Ahead(r) == r.received;
    assert Ahead(r.(pc := AfterSending(batch, |batch| == BATCH))) == r.received + batch;
    if Increasing(s.log) {
      BatchFollows(s.log, r.received, r.lastSeq, batch);
    }
  }

  lemma ReadersKept(s: State, a: Action, r: nat)
    requires Enabled(s, a) && r < |s.readers| && ReaderOk(s, s.readers[r])
    requires Distinct(s.log)
    requires forall j :: 0 <= j < |s.log| ==> 1 <= s.log[j]
    ensures |Apply(s, a).readers| == |s.readers| && ReaderOk(Apply(s, a), Apply(s, a).readers[r])
  {
    var t, x := Apply(s, a), s.readers[r];
    LogKept(s, a);
    LogShape(s, a);
    ReaderShape(s, a, r);
    var y := t.readers[r];
    match a
    case Take(_, _) => WakeupsKept(s, a, x); ProgressGrows(s.log, t.log, x);
    case Insert(_, _) => WakeupsKept(s, a, x); ProgressGrows(s.log, t.log, x);
    case Dispose => WakeupsKept(s, a, x);
    case Read(q, batch) =>
      if q == r {
        ReadKept(s.log, s.emitters, x, batch);
        ReadStaysInOrder(s, x, batch);
      }
    case SendOne(q) =>
      if q == r {
        SendKept(s.log, s.emitters, x);
      }
    case _ =>
      WakeupsKeptOnMove(s, a, r);
      MovedReader(s, a, r);
  }

  lemma MovedReader(s: State, a: Action, r: nat)
    requires Enabled(s, a) && r < |s.readers| && Progress(s.log, s.readers[r])
    requires !a.Read? && !a.SendOne? && !a.Take? && !a.Insert? && !a.Dispose?
    ensures |Apply(s, a).readers| == |s.readers| && Apply(s, a).log == s.log
    ensures var y := Apply(s, a).readers[r]; Progress(s.log, y) && Ahead(y) <= Ahead(s.readers[r])
  {
    ReaderShape(s, a, r);
    LogShape(s, a);
    var x, y := s.readers[r], Apply(s, a).readers[r];
    if y.pc == x.pc {
      assert Ahead(y) == Ahead(x);
    } else {
      QuietReaderKept(s.log, x, y);
    }
  }

  lemma ReaderCount(s: State, a: Action)
    requires Enabled(s, a)
    ensures |Apply(s, a).readers| == |s.readers| && |Apply(s, a).emitters| == |s.emitters|
  {
  }

  /** A counter once created too low is remembered. */
  lemma LowStays(s: State, a: Action)
    requires Enabled(s, a)
    ensures s.low ==> Apply(s, a).low
  {
  }

  lemma EmittersKept(s: State, a: Action)
    requires Enabled(s, a) && Inv(s)
    ensures !Apply(s, a).low ==> Numbering(Apply(s, a))
    ensures !Apply(s, a).low && |Apply(s, a).emitters| == 1 ==> Alone(Apply(s, a))
  {
    LowStays(s, a);
    ReaderCount(s, a);
    if !Apply(s, a).low {
      NumberingKept(s, a);
      if |s.emitters| == 1 {
        AloneKept(s, a);
      }
    }
  }

  lemma StepKeeps(s: State, a: Action)
    requires Enabled(s, a) && Inv(s)
    ensures Inv(Apply(s, a))
  {
    var t := Apply(s, a);
    LogKept(s, a);
    PositiveKept(s, a);
    InFlightKept(s, a);
    EmittersKept(s, a);
    ReaderCount(s, a);
    forall r | 0 <= r < |s.readers| ensures ReaderOk(t, t.readers[r]) {
      assert ReaderOk(s, s.readers[r]);
      ReadersKept(s, a, r);
    }
  }

  lemma InitialOk(emitters: nat, readers: nat)
    ensures Inv(Initial(emitters, readers))
  {
    var s := Initial(emitters, readers);
    forall r | 0 <= r < |s.readers| ensures ReaderOk(s, s.readers[r]) {
      assert Ahead(s.readers[r]) == [];
    }
  }

  lemma {:induction false} RunKeeps(s: State, actions: seq<Action>)
    requires Inv(s) && CanRun(s, actions)
    ensures Inv(RunFrom(s, actions))
    decreases |actions|
  {
    if actions == [] {
    } else {
      StepKeeps(s, actions[0]);
      RunKeeps(Apply(s, actions[0]), actions[1..]);
    }
  }
}

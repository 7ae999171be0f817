/**
 * When a stored event is lost to a client. Numbers are taken before they are stored, so an event may be
 * stored behind a client that has already passed its number; this says exactly when that costs something.
 */
module EventStreamLoss {
  import opened Common
  import opened EventStream
  import opened EventStreamProof
  import opened EventStreamRuns

  /** Everything stored up to the client's position has reached it. */
  ghost predicate NothingLost(log: seq<nat>, x: Reader) {
    forall n :: n in log && n <= x.lastSeq ==> n in x.received
  }

  /** Everything stored up to the end of the current batch has reached it, or is in the batch. */
  ghost predicate Covered(log: seq<nat>, x: Reader) {
    forall n :: n in log && n <= Horizon(x) ==> n in Ahead(x)
  }

  predicate StartsOver(a: Action, r: nat) {
    a.Connect? && a.r == r && a.fromStart
  }

  predicate NeverStartsOver(actions: seq<Action>, r: nat) {
    forall i :: 0 <= i < |actions| ==> !StartsOver(actions[i], r)
  }

  /** A number above the client's position is stored, but the batch being sent goes past it. */
  ghost predicate Skips(log: seq<nat>, x: Reader) {
    x.pc.Sending? && x.pc.rest != [] && exists n :: n in log && x.lastSeq < n < x.pc.rest[0]
  }

  /** An insert at or below the client's position, or sending past a stored number. */
  ghost predicate Loses(s: State, a: Action, r: nat)
    requires Enabled(s, a) && r < |s.readers|
  {
    || (a.Insert? && a.ok && s.emitters[a.e].num !in s.log && s.emitters[a.e].num <= s.readers[r].lastSeq)
    || (a == SendOne(r) && Skips(s.log, s.readers[r]))
  }

  // ---------- one step ----------

  lemma ReceivedIsStored(log: seq<nat>, x: Reader, n: nat)
    requires Progress(log, x) && n in x.received
    ensures n in log && n <= x.lastSeq
  {
    var i :| 0 <= i < |x.received| && x.received[i] == n;
    assert Ahead(x)[i] == n;
    assert Ahead(x)[|x.received| - 1] == x.lastSeq;
  }

  lemma InsertLoses(s: State, e: nat, ok: bool, r: nat)
    requires Enabled(s, Insert(e, ok)) && r < |s.readers|
    requires Progress(s.log, s.readers[r]) && NothingLost(s.log, s.readers[r])
    ensures NothingLost(Apply(s, Insert(e, ok)).log, s.readers[r]) <==> !Loses(s, Insert(e, ok), r)
  {
    var t, x, m := Apply(s, Insert(e, ok)), s.readers[r], s.emitters[e].num;
    LogShape(s, Insert(e, ok));
    if ok && m !in s.log {
      assert t.log[|s.log|] == m;
      assert forall n :: n in t.log <==> n in s.log || n == m;
      if m in x.received {
        ReceivedIsStored(s.log, x, m);
      }
    }
  }

  lemma SendLoses(log: seq<nat>, x: Reader)
    requires x.pc.Sending? && Progress(log, x) && NothingLost(log, x)
    ensures var rest := x.pc.rest;
            var y := x.(lastSeq := rest[0], received := x.received + [rest[0]], pc := AfterSending(rest[1..], x.pc.full));
            NothingLost(log, y) <==> !Skips(log, x)
  {
    var first := x.pc.rest[0];
    var got := x.received + [first];
    assert forall n :: n in got <==> n in x.received || n == first;
    assert Ahead(x)[|x.received|] == first;
    assert x.received != [] ==> Ahead(x)[|x.received| - 1] == x.lastSeq;
    forall n | n in x.received ensures n <= x.lastSeq {
      ReceivedIsStored(log, x, n);
    }
  }

  lemma OtherStepsLoseNothing(s: State, a: Action, r: nat)
    requires Enabled(s, a) && r < |s.readers| && !a.Insert? && a != SendOne(r)
    requires NothingLost(s.log, s.readers[r]) && Positive(s)
    ensures |Apply(s, a).readers| == |s.readers| && NothingLost(Apply(s, a).log, Apply(s, a).readers[r])
  {
    LogShape(s, a);
    ReaderShape(s, a, r);
  }

  /** From a state in which nothing is lost, a step loses something exactly when it is of one of those kinds. */
  lemma StepLoses(s: State, a: Action, r: nat)
    requires Inv(s) && Enabled(s, a) && r < |s.readers| && NothingLost(s.log, s.readers[r])
    ensures |Apply(s, a).readers| == |s.readers|
    ensures NothingLost(Apply(s, a).log, Apply(s, a).readers[r]) <==> !Loses(s, a, r)
  {
    assert ReaderOk(s, s.readers[r]);
    ReaderShape(s, a, r);
    LogShape(s, a);
    if a.Insert? {
      InsertLoses(s, a.e, a.ok, r);
    } else if a == SendOne(r) {
      SendLoses(s.log, s.readers[r]);
    } else {
      OtherStepsLoseNothing(s, a, r);
    }
  }

  /** A number passed over stays unread, unless the client starts over. */
  lemma PassedOverStep(s: State, a: Action, r: nat, n: nat)
    requires Inv(s) && Enabled(s, a) && r < |s.readers| && !StartsOver(a, r)
    requires n in s.log && n <= s.readers[r].lastSeq && n !in s.readers[r].received
    ensures var t := Apply(s, a);
            && |t.readers| == |s.readers| && n in t.log
            && n <= t.readers[r].lastSeq && n !in t.readers[r].received
  {
    ReaderShape(s, a, r);
    LogShape(s, a);
    var x := s.readers[r];
    assert ReaderOk(s, x);
    if a == SendOne(r) {
      assert Ahead(x)[|x.received|] == x.pc.rest[0];
      assert x.received != [] ==> Ahead(x)[|x.received| - 1] == x.lastSeq;
    }
  }

  lemma {:induction false} PassedOverForEver(s: State, actions: seq<Action>, r: nat, n: nat)
    requires Inv(s) && CanRun(s, actions) && r < |s.readers| && NeverStartsOver(actions, r)
    requires n in s.log && n <= s.readers[r].lastSeq && n !in s.readers[r].received
    ensures var t := RunFrom(s, actions);
            && r < |t.readers| && n in t.log && n <= t.readers[r].lastSeq && n !in t.readers[r].received
    decreases |actions|
  {
    if actions == [] {
    } else {
      StepKeeps(s, actions[0]);
      assert !StartsOver(actions[0], r);
      PassedOverStep(s, actions[0], r, n);
      PassedOverForEver(Apply(s, actions[0]), actions[1..], r, n);
    }
  }

  // ---------- whole runs ----------

  ghost predicate LosesSomewhere(s: State, actions: seq<Action>, r: nat)
    requires CanRun(s, actions) && r < |s.readers|
    decreases |actions|
  {
    actions != [] &&
    (ReaderCount(s, actions[0]);
     Loses(s, actions[0], r) || LosesSomewhere(Apply(s, actions[0]), actions[1..], r))
  }

  /** Over a run without starting over, something is lost at the end if and only if some step lost it. */
  lemma {:induction false} LostExactlyBySuchSteps(s: State, actions: seq<Action>, r: nat)
    requires Inv(s) && CanRun(s, actions) && r < |s.readers| && NeverStartsOver(actions, r)
    requires NothingLost(s.log, s.readers[r])
    ensures r < |RunFrom(s, actions).readers|
    ensures NothingLost(RunFrom(s, actions).log, RunFrom(s, actions).readers[r]) <==> !LosesSomewhere(s, actions, r)
    decreases |actions|
  {
    if actions == [] {
    } else {
      var a, t := actions[0], Apply(s, actions[0]);
      StepKeeps(s, a);
      StepLoses(s, a, r);
      assert NeverStartsOver(actions[1..], r);
      if NothingLost(t.log, t.readers[r]) {
        LostExactlyBySuchSteps(t, actions[1..], r);
      } else {
        var n :| n in t.log && n <= t.readers[r].lastSeq && n !in t.readers[r].received;
        PassedOverForEver(t, actions[1..], r, n);
      }
    }
  }

  /**
   * A client that is parked, unsignalled, with no emitter between insert and Notify, has every stored
   * event if and only if no step of the run lost one to it; and in stored order exactly when that is
   * number order.
   */
  lemma IdleClientsHaveEverything(s: State, emitters: nat, readers: nat, actions: seq<Action>, r: nat)
    requires Reached(s, emitters, readers, actions) && r < readers && NeverStartsOver(actions, r)
    requires r < |s.readers| && s.readers[r].pc.Parked? && !s.readers[r].token
    requires forall e :: 0 <= e < |s.emitters| ==> !s.emitters[e].Inserted?
    ensures (forall n :: n in s.log ==> n in s.readers[r].received)
            <==> !LosesSomewhere(Initial(emitters, readers), actions, r)
    ensures s.readers[r].received == s.log <==> Increasing(s.log)
  {
    InitialOk(emitters, readers);
    ReachedKeepsInv(s, emitters, readers, actions);
    LostExactlyBySuchSteps(Initial(emitters, readers), actions, r);
    NothingAboveIdle(s, r);
    IdleInOrder(s, r);
  }

  lemma NothingAboveIdle(s: State, r: nat)
    requires Inv(s) && r < |s.readers| && s.readers[r].pc.Parked? && !s.readers[r].token
    requires forall e :: 0 <= e < |s.emitters| ==> !s.emitters[e].Inserted?
    ensures forall n :: n in s.log ==> n <= s.readers[r].lastSeq
  {
    assert ReaderOk(s, s.readers[r]);
    forall n | n in s.log ensures n <= s.readers[r].lastSeq {
      assert !AboutToNotify(s.emitters, n);
    }
  }

  lemma IdleInOrder(s: State, r: nat)
    requires Inv(s) && r < |s.readers| && s.readers[r].pc.Parked?
    requires forall n :: n in s.log ==> n <= s.readers[r].lastSeq
    ensures s.readers[r].received == s.log <==> Increasing(s.log)
  {
    var x := s.readers[r];
    assert ReaderOk(s, x) && Ahead(x) == x.received;
    if Increasing(s.log) {
      var k := |x.received|;
      assert k > 0 ==> x.lastSeq == s.log[k - 1];
      assert s.log != [] ==> s.log[|s.log| - 1] in s.log;
      assert s.log != [] ==> 1 <= s.log[|s.log| - 1] <= x.lastSeq;
    }
  }

  // ---------- what keeps a client safe ----------

  ghost predicate InsertsAbove(s: State, actions: seq<Action>, r: nat)
    requires CanRun(s, actions) && r < |s.readers|
    decreases |actions|
  {
    actions == [] ||
    (ReaderCount(s, actions[0]);
     && (actions[0].Insert? && actions[0].ok ==> s.emitters[actions[0].e].num > Horizon(s.readers[r]))
     && InsertsAbove(Apply(s, actions[0]), actions[1..], r))
  }

  lemma CoveredLosesNothing(log: seq<nat>, x: Reader)
    requires Progress(log, x) && Covered(log, x) && forall i :: 0 <= i < |log| ==> 1 <= log[i]
    ensures NothingLost(log, x)
  {
    HorizonIsAhead(log, x);
    forall n | n in log && n <= x.lastSeq ensures n in x.received {
      var i :| 0 <= i < |Ahead(x)| && Ahead(x)[i] == n;
      assert i < |x.received|;
      assert x.received[i] == n;
    }
  }

  lemma HorizonIsAhead(log: seq<nat>, x: Reader)
    requires Progress(log, x) && forall i :: 0 <= i < |log| ==> 1 <= log[i]
    ensures x.lastSeq <= Horizon(x)
    ensures forall i :: |x.received| <= i < |Ahead(x)| ==> Ahead(x)[i] > x.lastSeq
  {
    var k := |x.received|;
    assert x.received != [] ==> Ahead(x)[k - 1] == x.lastSeq;
    if x.pc.Sending? {
      assert Ahead(x)[|Ahead(x)| - 1] == Horizon(x);
    }
    forall i | k <= i < |Ahead(x)| ensures Ahead(x)[i] > x.lastSeq {
      if k > 0 {
        assert Ahead(x)[k - 1] < Ahead(x)[i];
      } else {
        assert Ahead(x)[i] in log;
      }
    }
  }

  lemma ReadCovers(log: seq<nat>, x: Reader, batch: seq<nat>)
    requires x.pc.Reading? && Progress(log, x) && Covered(log, x) && IsBatch(log, x.lastSeq, batch)
    ensures Covered(log, x.(pc := AfterSending(batch, |batch| == BATCH)))
  {
    var y := x.(pc := AfterSending(batch, |batch| == BATCH));
    assert Ahead(x) == x.received && Ahead(y) == x.received + batch;
    forall n | n in log && n <= Horizon(y) ensures n in Ahead(y) {
      if n <= x.lastSeq {
        assert n in x.received;
      } else {
        assert batch != [] && n <= batch[|batch| - 1];
        assert n in batch;
      }
    }
  }

  lemma StepCovers(s: State, a: Action, r: nat)
    requires Inv(s) && Enabled(s, a) && r < |s.readers| && Covered(s.log, s.readers[r])
    requires a.Insert? && a.ok ==> s.emitters[a.e].num > Horizon(s.readers[r])
    ensures |Apply(s, a).readers| == |s.readers| && Covered(Apply(s, a).log, Apply(s, a).readers[r])
  {
    var x := s.readers[r];
    assert ReaderOk(s, x);
    ReaderShape(s, a, r);
    LogShape(s, a);
    CoveredLosesNothing(s.log, x);
    if a.Read? && a.r == r {
      ReadCovers(s.log, x, a.batch);
    } else if a == SendOne(r) {
      SendKept(s.log, s.emitters, x);
      assert Horizon(Apply(s, a).readers[r]) == Horizon(x);
    } else if Apply(s, a).readers[r].pc != x.pc {
      assert Ahead(Apply(s, a).readers[r]) == Apply(s, a).readers[r].received;
    }
  }

  /** If every event is stored above what the client's current batch reaches, nothing is ever lost to it. */
  lemma {:induction false} AboveTheHorizonNothingIsLost(s: State, actions: seq<Action>, r: nat)
    requires Inv(s) && CanRun(s, actions) && r < |s.readers| && Covered(s.log, s.readers[r])
    requires InsertsAbove(s, actions, r)
    ensures var t := RunFrom(s, actions);
            r < |t.readers| && Covered(t.log, t.readers[r]) && NothingLost(t.log, t.readers[r])
    decreases |actions|
  {
    if actions == [] {
      assert ReaderOk(s, s.readers[r]);
      CoveredLosesNothing(s.log, s.readers[r]);
    } else {
      StepKeeps(s, actions[0]);
      StepCovers(s, actions[0], r);
      AboveTheHorizonNothingIsLost(Apply(s, actions[0]), actions[1..], r);
    }
  }

  // ---------- in between: stored behind the batch but ahead of the client ----------

  /** A disconnect in mid-batch saves such an event: the next connection reads it. */
  lemma DisconnectCovers(s: State, r: nat)
    requires Inv(s) && Enabled(s, Disconnect(r)) && NothingLost(s.log, s.readers[r])
    ensures |Apply(s, Disconnect(r)).readers| == |s.readers|
    ensures Covered(Apply(s, Disconnect(r)).log, Apply(s, Disconnect(r)).readers[r])
  {
    ReaderShape(s, Disconnect(r), r);
  }

  function SendRest(r: nat, k: nat): seq<Action> {
    if k == 0 then [] else [SendOne(r)] + SendRest(r, k - 1)
  }

  lemma {:induction false} BatchGoesOut(s: State, r: nat)
    requires Inv(s) && r < |s.readers| && s.readers[r].pc.Sending?
    ensures CanRun(s, SendRest(r, |s.readers[r].pc.rest|))
    ensures var t := RunFrom(s, SendRest(r, |s.readers[r].pc.rest|));
            && r < |t.readers| && t.log == s.log && !t.readers[r].pc.Sending?
            && t.readers[r].received == Ahead(s.readers[r]) && t.readers[r].lastSeq == Horizon(s.readers[r])
    decreases |s.readers[r].pc.rest|
  {
    var x := s.readers[r];
    assert ReaderOk(s, x);
    var k, t := |x.pc.rest|, Apply(s, SendOne(r));
    assert SendRest(r, k)[1..] == SendRest(r, k - 1);
    ReaderShape(s, SendOne(r), r);
    LogShape(s, SendOne(r));
    StepKeeps(s, SendOne(r));
    SendKept(s.log, s.emitters, x);
    if k == 1 {
      assert SendRest(r, 0) == [];
      assert Ahead(t.readers[r]) == t.readers[r].received;
    } else {
      assert t.readers[r].pc == Sending(x.pc.rest[1..], x.pc.full);
      BatchGoesOut(t, r);
    }
  }

  /** Sending the batch to its end loses something exactly when the batch does not cover what is stored. */
  lemma BatchLosesExactlyTheUncovered(s: State, r: nat)
    requires Inv(s) && r < |s.readers| && s.readers[r].pc.Sending?
    ensures CanRun(s, SendRest(r, |s.readers[r].pc.rest|))
    ensures var t := RunFrom(s, SendRest(r, |s.readers[r].pc.rest|));
            && r < |t.readers|
            && (NothingLost(t.log, t.readers[r]) <==> Covered(s.log, s.readers[r]))
  {
    BatchGoesOut(s, r);
  }

  // ---------- such a run ----------

  lemma Chain(s: State, end: State, a: Action, rest: seq<Action>)
    requires Enabled(s, a) && CanRun(Apply(s, a), rest) && RunFrom(Apply(s, a), rest) == end
    ensures CanRun(s, [a] + rest) && RunFrom(s, [a] + rest) == end
  {
    assert ([a] + rest)[1..] == rest;
  }

  /** Number 2 is stored first and read by a client; then number 1 is stored. */
  lemma ReadBetweenInserts(s: State) returns (t: State, a: seq<Action>)
    requires s == State(Some(2), [2], [Numbered(1), Inserted(2)], [Reader(Off, 0, false, [])], false)
    ensures CanRun(s, a) && RunFrom(s, a) == t
    ensures t == State(Some(2), [2, 1], [Inserted(1), Inserted(2)], [Reader(Drained, 2, false, [2])], false)
  {
    var s1 := s.(readers := [Reader(Reading, 0, false, [])]);
    var s2 := s.(readers := [Reader(Sending([2], false), 0, false, [])]);
    var s3 := s.(readers := [Reader(Drained, 2, false, [2])]);
    t := State(Some(2), [2, 1], [Inserted(1), Inserted(2)], [Reader(Drained, 2, false, [2])], false);
    assert Apply(s3, Insert(0, true)) == t;
    Chain(s3, t, Insert(0, true), []);
    assert s2.readers[0].pc.rest[1..] == [] && [] + [2] == [2];
    assert Apply(s2, SendOne(0)).readers == s3.readers;
    Chain(s2, t, SendOne(0), [Insert(0, true)]);
    assert IsBatch([2], 0, [2]);
    assert Apply(s1, Read(0, [2])) == s2;
    Chain(s1, t, Read(0, [2]), [SendOne(0)] + [Insert(0, true)]);
    assert Apply(s, Connect(0, false)) == s1;
    a := [Read(0, [2])] + ([SendOne(0)] + [Insert(0, true)]);
    Chain(s, t, Connect(0, false), a);
    a := [Connect(0, false)] + a;
  }

  lemma Overtake() returns (t: State, a: seq<Action>)
    ensures Reached(t, 2, 1, a)
    ensures t == State(Some(2), [2, 1], [Inserted(1), Inserted(2)], [Reader(Drained, 2, false, [2])], false)
  {
    var off := [Reader(Off, 0, false, [])];
    var s0 := Initial(2, 1);
    var s1 := State(Some(1), [], [Numbered(1), Quiet], off, false);
    var s2 := State(Some(2), [], [Numbered(1), Numbered(2)], off, false);
    var s3 := State(Some(2), [2], [Numbered(1), Inserted(2)], off, false);
    t, a := ReadBetweenInserts(s3);
    assert Apply(s2, Insert(1, true)) == s3;
    Chain(s2, t, Insert(1, true), a);
    a := [Insert(1, true)] + a;
    assert Apply(s1, Take(1, true)) == s2;
    Chain(s1, t, Take(1, true), a);
    a := [Take(1, true)] + a;
    assert Apply(s0, Take(0, true)) == s1;
    Chain(s0, t, Take(0, true), a);
    a := [Take(0, true)] + a;
  }

  /** Two emitters whose inserts overtake each other do lose an event to a client, until it starts over. */
  lemma OvertakingLosesAnEvent() returns (s: State)
    ensures exists actions :: Reached(s, 2, 1, actions)
    ensures 1 in s.log && |s.readers| == 1
    ensures forall more :: CanRun(s, more) && NeverStartsOver(more, 0) ==>
              |RunFrom(s, more).readers| == 1 && 1 !in RunFrom(s, more).readers[0].received
  {
    var a;
    s, a := Overtake();
    ReachedKeepsInv(s, 2, 1, a);
    assert s.log[1] == 1;
    forall more | CanRun(s, more) && NeverStartsOver(more, 0)
      ensures |RunFrom(s, more).readers| == 1 && 1 !in RunFrom(s, more).readers[0].received
    {
      PassedOverForEver(s, more, 0, 1);
      RunKeepsSizes(s, more);
    }
  }
}

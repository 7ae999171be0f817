/** When an event number can still collide with a stored one. */
module EventStreamNumbers {
  import opened EventStream
  import opened EventStreamProof

  /** No counter is given up: neither the job finishes nor the process restarts. */
  predicate KeepsCounter(a: Action) {
    !a.Dispose? && !a.Restart?
  }

  predicate AllKeepCounter(actions: seq<Action>) {
    forall i :: 0 <= i < |actions| ==> KeepsCounter(actions[i])
  }

  /** The next numbers are too low, or will be if the stored maximum cannot be read, or one is already. */
  ghost predicate AtRisk(s: State) {
    || (s.counter.None? && s.log != [])
    || (s.counter.Some? && s.counter.value < MaxOf(s.log))
    || Colliding(s)
  }

  ghost predicate CanCollide(s: State) {
    exists actions :: CanRun(s, actions) && AllKeepCounter(actions) && Colliding(RunFrom(s, actions))
  }

  // ---------- not at risk ----------

  lemma StepKeepsClear(s: State, a: Action)
    requires Enabled(s, a) && KeepsCounter(a) && InFlight(s) && !AtRisk(s)
    ensures InFlight(Apply(s, a)) && !AtRisk(Apply(s, a))
  {
    InFlightKept(s, a);
    match a
    case Insert(e, ok) => NumberingKeptByInsert(s, e, ok);
    case Take(e, ok) =>
      assert s.counter.None? ==> MaxOf(s.log) == 0;
      NumberingKeptByTake(s.(low := false), e, ok);
      assert Apply(s.(low := false), Take(e, ok)).emitters == Apply(s, a).emitters;
    case _ =>
      LogShape(s, a);
      EmittersOnlyFinish(s, a);
  }

  lemma {:induction false} ClearStaysClear(s: State, actions: seq<Action>)
    requires InFlight(s) && !AtRisk(s) && CanRun(s, actions) && AllKeepCounter(actions)
    ensures !Colliding(RunFrom(s, actions))
    decreases |actions|
  {
    if actions != [] {
      assert KeepsCounter(actions[0]);
      StepKeepsClear(s, actions[0]);
      assert AllKeepCounter(actions[1..]);
      ClearStaysClear(Apply(s, actions[0]), actions[1..]);
    }
  }

  // ---------- at risk ----------

  lemma Chain(s: State, a: Action, rest: seq<Action>)
    requires Enabled(s, a) && CanRun(Apply(s, a), rest) && KeepsCounter(a) && AllKeepCounter(rest)
    ensures CanRun(s, [a] + rest) && AllKeepCounter([a] + rest)
    ensures RunFrom(s, [a] + rest) == RunFrom(Apply(s, a), rest)
  {
    assert ([a] + rest)[1..] == rest;
  }

  function Distance(s: State): nat {
    if s.counter.None? then MaxOf(s.log) + 1
    else if s.counter.value < MaxOf(s.log) then MaxOf(s.log) - s.counter.value
    else 0
  }

  /** The first emitter alone: it drops what it holds, takes the next number, and so on up to a stored one. */
  lemma {:induction false} CountUp(s: State) returns (actions: seq<Action>)
    requires InFlight(s) && Positive(s) && AtRisk(s) && |s.emitters| > 0
    ensures CanRun(s, actions) && AllKeepCounter(actions) && Colliding(RunFrom(s, actions))
    decreases Distance(s), if s.emitters[0].Quiet? then 0 else 1
  {
    if Colliding(s) {
      actions := [];
    } else {
      var a := NextStep(s);
      var t := Apply(s, a);
      var rest := CountUp(t);
      Chain(s, a, rest);
      actions := [a] + rest;
    }
  }

  lemma NextStep(s: State) returns (a: Action)
    requires InFlight(s) && Positive(s) && AtRisk(s) && !Colliding(s) && |s.emitters| > 0
    ensures Enabled(s, a) && KeepsCounter(a)
    ensures var t := Apply(s, a);
            && InFlight(t) && Positive(t) && AtRisk(t) && |t.emitters| == |s.emitters|
            && (Distance(t) < Distance(s) || (Distance(t) == Distance(s) && !s.emitters[0].Quiet? && t.emitters[0].Quiet?))
  {
    if s.emitters[0].Numbered? {
      a := Insert(0, false);
    } else if s.emitters[0].Inserted? {
      a := Notify(0);
    } else {
      a := Take(0, false);
      TakeNext(s);
    }
    InFlightKept(s, a);
    PositiveKept(s, a);
    ReaderCount(s, a);
    LogShape(s, a);
  }

  lemma TakeNext(s: State)
    requires InFlight(s) && Positive(s) && AtRisk(s) && !Colliding(s) && |s.emitters| > 0 && s.emitters[0].Quiet?
    ensures AtRisk(Apply(s, Take(0, false))) && Distance(Apply(s, Take(0, false))) < Distance(s)
  {
    var t := Apply(s, Take(0, false));
    var n := t.counter.value;
    assert t.log == s.log && t.emitters[0] == Numbered(n);
    assert s.log != [] ==> MaxOf(s.log) in s.log;
    assert n in t.log ==> Colliding(t);
    assert MaxOf(s.log) > 0;
  }

  /**
   * While the counter is kept, some continuation gets an insert refused if and only if a number in flight
   * is stored already, the counter is below the stored maximum, or there is none although events are stored.
   */
  lemma CollisionsExactly(s: State)
    requires Inv(s) && |s.emitters| > 0
    ensures CanCollide(s) <==> AtRisk(s)
  {
    if AtRisk(s) {
      var actions := CountUp(s);
    } else if actions :| CanRun(s, actions) && AllKeepCounter(actions) && Colliding(RunFrom(s, actions)) {
      ClearStaysClear(s, actions);
    }
  }

  /** With a counter that could read the stored maximum, or with nothing stored, there is no risk. */
  lemma SoundCounterIsSafe(s: State, e: nat, ok: bool)
    requires Inv(s) && Enabled(s, Take(e, ok)) && s.counter.None?
    ensures var t := Apply(s, Take(e, ok));
            && (AtRisk(t) <==> !ok && s.log != [])
            && (t.low <==> s.low || AtRisk(t))
  {
    var t := Apply(s, Take(e, ok));
    assert t.emitters[e] == Numbered(t.counter.value);
    assert forall f :: 0 <= f < |t.emitters| && f != e ==> t.emitters[f].Quiet?;
    if s.log != [] {
      assert MaxOf(s.log) in s.log && MaxOf(s.log) >= 1;
    }
  }
}

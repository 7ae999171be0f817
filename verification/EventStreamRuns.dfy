/** What holds over every run of the event stream. */
module EventStreamRuns {
  import opened EventStream
  import opened EventStreamProof

  ghost predicate Reached(s: State, emitters: nat, readers: nat, actions: seq<Action>) {
    CanRun(Initial(emitters, readers), actions) && s == RunFrom(Initial(emitters, readers), actions)
  }

  lemma ReachedKeepsInv(s: State, emitters: nat, readers: nat, actions: seq<Action>)
    requires Reached(s, emitters, readers, actions)
    ensures Inv(s) && |s.emitters| == emitters
  {
    InitialOk(emitters, readers);
    RunKeeps(Initial(emitters, readers), actions);
    RunKeepsSizes(Initial(emitters, readers), actions);
  }

  lemma {:induction false} RunKeepsSizes(s: State, actions: seq<Action>)
    requires CanRun(s, actions)
    ensures |RunFrom(s, actions).emitters| == |s.emitters| && |RunFrom(s, actions).readers| == |s.readers|
    decreases |actions|
  {
    if actions == [] {
    } else {
      ReaderCount(s, actions[0]);
      RunKeepsSizes(Apply(s, actions[0]), actions[1..]);
    }
  }

  /** A stream parked without a token with something left to read has a Notify on its way. */
  lemma NoLostWakeup(s: State, emitters: nat, readers: nat, actions: seq<Action>, r: nat, n: nat)
    requires Reached(s, emitters, readers, actions)
    requires r < |s.readers| && s.readers[r].pc.Parked? && n in s.log && n > s.readers[r].lastSeq
    ensures s.readers[r].token || AboutToNotify(s.emitters, n)
  {
    ReachedKeepsInv(s, emitters, readers, actions);
    assert WakeupsPending(s.log, s.emitters, s.readers[r]);
  }

  /**
   * Stored numbers are never repeated, whatever happened to the counter; numbers on the way are
   * different; and as long as no counter was created below the stored maximum, no insert is refused.
   */
  lemma NumbersAreUnique(s: State, emitters: nat, readers: nat, actions: seq<Action>)
    requires Reached(s, emitters, readers, actions)
    ensures Distinct(s.log)
    ensures forall e, f :: 0 <= e < f < |s.emitters| && s.emitters[e].Numbered? && s.emitters[f].Numbered? ==>
              s.emitters[e].num != s.emitters[f].num
    ensures !s.low ==> !Colliding(s)
  {
    ReachedKeepsInv(s, emitters, readers, actions);
  }

  /** Since a client last started over it sees no number twice or out of order, and none that is not stored. */
  lemma ClientsSeeAnIncreasingStream(s: State, emitters: nat, readers: nat, actions: seq<Action>, r: nat)
    requires Reached(s, emitters, readers, actions) && r < |s.readers|
    ensures Increasing(s.readers[r].received)
    ensures forall i :: 0 <= i < |s.readers[r].received| ==> s.readers[r].received[i] in s.log
  {
    ReachedKeepsInv(s, emitters, readers, actions);
    var x := s.readers[r];
    assert Progress(s.log, x);
    assert forall i :: 0 <= i < |x.received| ==> x.received[i] == Ahead(x)[i];
  }

  /** While the stored log is in number order: over any chain of reconnects the client has a prefix of it. */
  lemma ClientsSeeAPrefix(s: State, emitters: nat, readers: nat, actions: seq<Action>, r: nat)
    requires Reached(s, emitters, readers, actions) && r < |s.readers| && Increasing(s.log)
    ensures s.readers[r].received <= s.log
  {
    ReachedKeepsInv(s, emitters, readers, actions);
    var x := s.readers[r];
    assert ReaderOk(s, x);
    assert x.received == Ahead(x)[..|x.received|];
  }

  /** A single emitter keeps the order, unless a counter was created below the stored maximum. */
  lemma OneEmitterStaysOrdered(s: State, readers: nat, actions: seq<Action>)
    requires Reached(s, 1, readers, actions) && !s.low
    ensures Increasing(s.log)
  {
    ReachedKeepsInv(s, 1, readers, actions);
  }
}

/** What readers are woken by, how much they read at a time, and what a restart forgets, in plain terms. */
module EventStreamSteps {
  import opened EventStream

  /** A new job's stream: no counter, no events, nobody connected. */
  lemma NewStreamIsEmpty(emitters: nat, readers: nat)
    ensures var s := Initial(emitters, readers);
            && s.counter.None? && s.log == [] && !s.low && |s.emitters| == emitters && |s.readers| == readers
            && (forall e :: 0 <= e < emitters ==> s.emitters[e].Quiet?)
            && (forall r :: 0 <= r < readers ==> s.readers[r] == Reader(Off, 0, false, []))
  {
  }

  /** A notification, with an event or without, reaches every connected reader and nobody else. */
  lemma NotifyReachesTheConnected(s: State, e: nat, r: nat)
    requires r < |s.readers|
    ensures Enabled(s, NotifyOnly)
    ensures |Apply(s, NotifyOnly).readers| == |s.readers|
    ensures Apply(s, NotifyOnly).readers[r] == if s.readers[r].pc.Off? then s.readers[r] else s.readers[r].(token := true)
    ensures Apply(s, NotifyOnly) == s.(readers := Apply(s, NotifyOnly).readers)
    ensures Enabled(s, Notify(e)) ==>
              Apply(s, Notify(e)) == Apply(s, NotifyOnly).(emitters := s.emitters[e := Quiet])
  {
  }

  /** At any time the process may restart: counter, emitters and connections are gone, the log and what clients know stay. */
  lemma RestartForgets(s: State, r: nat)
    requires r < |s.readers|
    ensures Enabled(s, Restart)
    ensures var t := Apply(s, Restart);
            && t.counter.None? && t.log == s.log && |t.emitters| == |s.emitters| && |t.readers| == |s.readers|
            && (forall e :: 0 <= e < |t.emitters| ==> t.emitters[e].Quiet?)
            && t.readers[r] == s.readers[r].(pc := Off, token := false)
  {
  }

  /** A parked reader is woken by its token, which that uses up, or by a timer, and then asks again. */
  lemma ParkedReadersWake(s: State, r: nat)
    requires r < |s.readers| && s.readers[r].pc.Parked?
    ensures Enabled(s, Wake(r, false)) && (s.readers[r].token <==> Enabled(s, Wake(r, true)))
    ensures Apply(s, Wake(r, false)).readers[r] == s.readers[r].(pc := Reading)
    ensures s.readers[r].token ==> Apply(s, Wake(r, true)).readers[r] == s.readers[r].(pc := Reading, token := false)
  {
  }

  /** A query takes the first two hundred; fewer are all there is, and only after a full batch is another query made. */
  lemma BatchesOfTwoHundred(s: State, r: nat, batch: seq<nat>)
    requires Enabled(s, Read(r, batch))
    ensures |batch| <= 200
    ensures |batch| < 200 ==> forall n :: n in s.log && n > s.readers[r].lastSeq ==> n in batch
    ensures var x := Apply(s, Read(r, batch)).readers[r];
            && x == s.readers[r].(pc := x.pc)
            && x.pc == (if batch == [] then Drained else Sending(batch, |batch| == 200))
  {
  }

  /** A sent number is received, and after the last of a batch the reader asks again or goes to park. */
  lemma SendingAdvances(s: State, r: nat)
    requires Enabled(s, SendOne(r))
    ensures var x, y := s.readers[r], Apply(s, SendOne(r)).readers[r];
            && y == x.(lastSeq := x.pc.rest[0], received := x.received + [x.pc.rest[0]], pc := y.pc)
            && y.pc == (if |x.pc.rest| > 1 then Sending(x.pc.rest[1..], x.pc.full) else if x.pc.full then Reading else Drained)
  {
  }

  /** Readers park when they have drained, wake only from there, and an emitter notifies after it has inserted. */
  lemma OnlyInTurn(s: State, r: nat, e: nat, signal: bool, batch: seq<nat>)
    ensures Enabled(s, Park(r)) <==> r < |s.readers| && s.readers[r].pc.Drained?
    ensures Enabled(s, Wake(r, signal)) ==> r < |s.readers| && s.readers[r].pc.Parked?
    ensures Enabled(s, Read(r, batch)) ==> r < |s.readers| && s.readers[r].pc.Reading?
    ensures Enabled(s, Notify(e)) <==> e < |s.emitters| && s.emitters[e].Inserted?
  {
  }

  // ---------- a query always has an answer ----------

  ghost predicate AllAbove(log: seq<nat>, last: nat, all: seq<nat>) {
    Increasing(all) && forall n :: n in all <==> n in log && n > last
  }

  /** One more number put where it belongs. */
  lemma {:induction false} PutIn(all: seq<nat>, n: nat) returns (more: seq<nat>)
    requires Increasing(all)
    ensures Increasing(more) && forall k :: k in more <==> k in all || k == n
    ensures all != [] ==> more != [] && more[0] == if n < all[0] then n else all[0]
  {
    if all == [] || n < all[0] {
      more := [n] + all;
    } else if n == all[0] {
      more := all;
    } else {
      var rest := PutIn(all[1..], n);
      assert forall i :: 0 <= i < |rest| ==> all[0] < rest[i] by {
        forall i | 0 <= i < |rest| ensures all[0] < rest[i] {
          assert rest[i] in rest;
        }
      }
      more := [all[0]] + rest;
      assert all == [all[0]] + all[1..];
    }
  }

  lemma {:induction false} SortedAbove(log: seq<nat>, last: nat) returns (all: seq<nat>)
    ensures AllAbove(log, last, all)
  {
    if log == [] {
      all := [];
    } else {
      all := SortedAbove(log[1..], last);
      assert log == [log[0]] + log[1..];
      if log[0] > last {
        all := PutIn(all, log[0]);
      }
    }
  }

  /** Whatever is stored and wherever a reader stands, its query returns a batch. */
  lemma QueriesAnswer(log: seq<nat>, last: nat) returns (batch: seq<nat>)
    ensures IsBatch(log, last, batch)
  {
    var all := SortedAbove(log, last);
    batch := if |all| <= 200 then all else all[..200];
    assert forall i :: 0 <= i < |batch| ==> batch[i] == all[i] && all[i] in batch;
    forall n | n in log && n > last && n !in batch ensures |batch| == 200 && n > batch[199] {
      var i :| 0 <= i < |all| && all[i] == n;
      assert i >= |batch|;
    }
    assert forall i :: 0 <= i < |batch| ==> batch[i] == all[i] && all[i] in all;
  }
}

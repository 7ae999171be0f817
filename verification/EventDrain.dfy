/**
 * Draining the event log into one client connection, and resuming where a connection broke
 * (drain in pkg/handler/job_handler.go, ListJobEventsAfter in db/generated/sqlite/jobs.sql.go).
 */
module EventDrain {
  datatype Event = Event(num: nat, kind: string, payload: string)

  const EVENT_BATCH: nat := 200

  /** A job's rows as the query orders them. */
  ghost predicate InOrder(rows: seq<Event>) {
    forall i, j :: 0 <= i < j < |rows| ==> rows[i].num < rows[j].num
  }

  /** The first row numbered above `last`. */
  function Cut(rows: seq<Event>, last: int): (c: nat)
    ensures c <= |rows|
    ensures forall i :: 0 <= i < c ==> rows[i].num <= last
    ensures c < |rows| ==> rows[c].num > last
  {
    if rows == [] || rows[0].num > last then 0 else 1 + Cut(rows[1..], last)
  }

  /** The rows numbered above `last`. */
  function After(rows: seq<Event>, last: int): seq<Event> {
    rows[Cut(rows, last)..]
  }

  function Min(a: nat, b: nat): nat {
    if a < b then a else b
  }

  function Query(rows: seq<Event>, last: int): seq<Event> {
    After(rows, last)[..Min(EVENT_BATCH, |After(rows, last)|)]
  }

  function LastOf(sent: seq<Event>, last: int): int {
    if sent == [] then last else sent[|sent| - 1].num
  }

  /** Rows in order: only the first row above `last` has everything before it at most `last`. */
  lemma CutIsUnique(rows: seq<Event>, last: int, c: nat)
    requires InOrder(rows) && c <= |rows|
    requires c > 0 ==> rows[c - 1].num <= last
    requires c < |rows| ==> rows[c].num > last
    ensures Cut(rows, last) == c
  {
  }

  /** Having sent a prefix of what was above `last`, the rest is what is above the last number sent. */
  lemma AfterSent(rows: seq<Event>, last: int, sent: seq<Event>)
    requires InOrder(rows) && sent <= After(rows, last)
    ensures After(rows, LastOf(sent, last)) == After(rows, last)[|sent|..]
  {
    if sent != [] {
      var c := Cut(rows, last) + |sent|;
      assert rows[c - 1] == sent[|sent| - 1];
      CutIsUnique(rows, LastOf(sent, last), c);
    }
  }

  /** Rows appended later, still in order, come after everything a client may have been sent. */
  lemma AfterGrown(rows: seq<Event>, more: seq<Event>, last: int)
    requires InOrder(rows + more)
    ensures After(rows, last) <= After(rows + more, last)
  {
    var c := Cut(rows, last);
    if c < |rows| {
      assert (rows + more)[c] == rows[c];
      assert c > 0 ==> (rows + more)[c - 1] == rows[c - 1];
      CutIsUnique(rows + more, last, c);
    }
  }

  /**
   * Cut anywhere and resumed on the grown log, a client gets exactly what an uninterrupted drain of
   * the grown log would have sent: nothing missing, nothing twice.
   */
  lemma ResumeLosesNothing(rows: seq<Event>, more: seq<Event>, last: int, sent: seq<Event>)
    requires InOrder(rows + more) && sent <= After(rows, last)
    ensures sent + After(rows + more, LastOf(sent, last)) == After(rows + more, last)
  {
    AfterGrown(rows, more, last);
    AfterSent(rows + more, last, sent);
  }

  /** One connection: the rows there were, and how many of them got through. */
  datatype Session = Session(rows: seq<Event>, sent: nat)

  function SentIn(x: Session, last: int): (r: seq<Event>)
    ensures r <= After(x.rows, last)
  {
    After(x.rows, last)[..Min(x.sent, |After(x.rows, last)|)]
  }

  /** What a chain of connections delivers, each resuming from the last number the one before got. */
  function Delivered(sessions: seq<Session>, last: int): seq<Event> {
    if sessions == [] then []
    else
      var sent := SentIn(sessions[0], last);
      sent + Delivered(sessions[1..], LastOf(sent, last))
  }

  ghost predicate Growing(sessions: seq<Session>, final: seq<Event>) {
    && (forall i :: 0 <= i < |sessions| ==> sessions[i].rows <= final)
    && InOrder(final)
  }

  lemma SessionOnFinalLog(x: Session, final: seq<Event>, last: int)
    requires x.rows <= final && InOrder(final)
    ensures SentIn(x, last) + After(final, LastOf(SentIn(x, last), last)) == After(final, last)
  {
    assert x.rows + final[|x.rows|..] == final;
    ResumeLosesNothing(x.rows, final[|x.rows|..], last, SentIn(x, last));
  }

  lemma Joined(first: seq<Event>, second: seq<Event>, final: seq<Event>, last: int)
    ensures LastOf(first + second, last) == LastOf(second, LastOf(first, last))
    ensures forall rest :: first + (second + rest) == (first + second) + rest
  {
  }

  /**
   * Over any chain of reconnects to a log that only grows, what was delivered and what is still above
   * the last number make up the log's tail, so a last drain to the end completes it exactly.
   */
  lemma {:induction false} DeliveredAndRestAreAll(sessions: seq<Session>, final: seq<Event>, last: int)
    requires Growing(sessions, final)
    ensures Delivered(sessions, last) + After(final, LastOf(Delivered(sessions, last), last)) == After(final, last)
  {
    if sessions == [] {
    } else {
      var sent := SentIn(sessions[0], last);
      var next := LastOf(sent, last);
      SessionOnFinalLog(sessions[0], final, last);
      DeliveredAndRestAreAll(sessions[1..], final, next);
      Joined(sent, Delivered(sessions[1..], next), final, last);
    }
  }

  /** The next query takes up exactly where the sent prefix ends. */
  lemma NextBatch(rows: seq<Event>, start: int, sent: seq<Event>)
    requires InOrder(rows) && sent <= After(rows, start)
    ensures var todo, events := After(rows, start), Query(rows, LastOf(sent, start));
            && |events| == Min(200, |todo| - |sent|)
            && forall k :: 0 <= k < |events| ==> todo[..|sent| + k + 1] == todo[..|sent| + k] + [events[k]]
  {
    AfterSent(rows, start, sent);
  }

  /**
   * The drain itself: the client breaks after `sends` events, the database after `queries` reads.
   * It delivers the longest prefix those allow and succeeds exactly when that is everything.
   */
  method Drain(rows: seq<Event>, start: int, sends: nat, queries: nat)
    returns (lastSeq: int, sent: seq<Event>, ok: bool)
    requires InOrder(rows)
    ensures sent == After(rows, start)[..Min(|After(rows, start)|, Min(sends, queries * 200))]
    ensures lastSeq == LastOf(sent, start)
    ensures ok <==> |After(rows, start)| <= sends && |After(rows, start)| < queries * 200
  {
    ghost var todo := After(rows, start);
    lastSeq, sent := start, [];
    var asked := 0;
    while true
      invariant asked <= queries && |sent| == asked * EVENT_BATCH && |sent| <= sends
      invariant |sent| <= |todo| && sent == todo[..|sent|] && lastSeq == LastOf(sent, start)
      decreases queries - asked
    {
      if asked == queries {
        return lastSeq, sent, false;
      }
      NextBatch(rows, start, sent);
      var events := Query(rows, lastSeq);
      asked := asked + 1;
      if events == [] {
        return lastSeq, sent, true;
      }
      ghost var before := |sent|;
      var i := 0;
      while i < |events|
        invariant i <= |events| && |sent| == before + i <= sends
        invariant |sent| <= |todo| && sent == todo[..|sent|] && lastSeq == LastOf(sent, start)
      {
        if |sent| == sends {
          return lastSeq, sent, false;
        }
        lastSeq, sent := events[i].num, sent + [events[i]];
        i := i + 1;
      }
      if |events| < EVENT_BATCH {
        return lastSeq, sent, true;
      }
    }
  }
}

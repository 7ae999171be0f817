/** How pasted content becomes lines, and lines become batches. */
module ImportContent {
  import opened Text
  import opened Importer
  import opened ImportModel

  // ---------- lines ----------

  function Joined(lines: seq<string>): string {
    if lines == [] then "" else if |lines| == 1 then lines[0] else lines[0] + "\n" + Joined(lines[1..])
  }

  /** The lines are what lies between the line feeds: none has one inside, and joined they are the content. */
  lemma {:induction false} LinesAreTheContent(content: string)
    ensures Joined(Lines(content)) == content
    ensures forall i :: 0 <= i < |Lines(content)| ==> '\n' !in Lines(content)[i]
  {
    if content != "" {
      var rest := Lines(content[1..]);
      LinesAreTheContent(content[1..]);
      if content[0] == '\n' {
        assert ([""] + rest)[1..] == rest;
        assert "" + "\n" + Joined(rest) == ['\n'] + content[1..] == content;
      } else {
        var first := [content[0]] + rest[0];
        var lines := [first] + rest[1..];
        assert lines[1..] == rest[1..];
        assert forall i :: 1 <= i < |lines| ==> lines[i] == rest[i];
        if |rest| == 1 {
          assert Joined(lines) == [content[0]] + rest[0];
        } else {
          assert Joined(lines) == [content[0]] + (rest[0] + "\n" + Joined(rest[1..]));
        }
      }
    }
  }

  lemma {:induction false} OnlySpaceIsTrimmedAway(s: string)
    ensures Trim(s) == "" <==> forall i :: 0 <= i < |s| ==> s[i] in WHITE_SPACE
  {
    var i, j := TrimCut(s);
    forall k | 0 <= k < |s| ensures IsSpace(s[k]) <==> s[k] in WHITE_SPACE {
      SpaceIsWhiteSpace(s[k]);
    }
  }

  /** Lines of nothing but white space are passed over; every other one is parsed. */
  lemma LinesAreReadOrBlank(content: string, opts: Options, i: nat)
    requires i < |Lines(content)|
    ensures var line, entries := Lines(content)[i], ReadAll(Lines(content), opts);
            && |entries| == |Lines(content)|
            && entries[i] == if forall k :: 0 <= k < |line| ==> line[k] in WHITE_SPACE then Blank else Line(ParseLine(line, opts))
  {
    OnlySpaceIsTrimmedAway(Lines(content)[i]);
  }

  // ---------- batches ----------

  /** A transaction writes all that is queued, or fails all of it; transactions are counted one by one. */
  lemma FlushEmptiesTheBatch(s: State, faults: Faults)
    ensures var t := Flush(s, faults);
            && t.batch == [] && t.seen == s.seen && t.used == s.used
            && t.flushes == s.flushes + (if s.batch == [] then 0 else 1)
  {
  }

  /** An accepted line is queued, and the five hundredth in the queue has them all written. */
  lemma BatchesOfFiveHundred(plan: Plan, s: State, no: nat, entry: Entry, faults: Faults)
    requires |s.batch| < 500
    ensures var t := Step(plan, s, no, entry, faults);
            if entry.Blank? then t == s
            else
              var (u, pending) := PlanLine(plan, s.(ledger := s.ledger.(total := s.ledger.total + 1)), no, entry.parsed, faults);
              if pending.None? then t == u && t.batch == s.batch
              else
                var queued := u.(batch := s.batch + [pending.value]);
                t == if |s.batch| + 1 < 500 then queued else Flush(queued, faults)
  {
    if entry.Line? {
      var (u, pending) := PlanLine(plan, CountLine(s), no, entry.parsed, faults);
      assert u.batch == s.batch;
    }
  }

  /** So no transaction is of more than five hundred accounts. */
  lemma {:induction false} BatchStaysSmall(plan: Plan, rows: map<string, Row>, entries: seq<Entry>, n: nat, faults: Faults)
    requires n <= |entries|
    ensures |After(plan, rows, entries, n, faults).batch| < 500
  {
    if n == 0 {
    } else {
      BatchStaysSmall(plan, rows, entries, n - 1, faults);
      var s := After(plan, rows, entries, n - 1, faults);
      BatchesOfFiveHundred(plan, s, n, entries[n - 1], faults);
      if entries[n - 1].Line? {
        var (u, pending) := PlanLine(plan, s.(ledger := s.ledger.(total := s.ledger.total + 1)), n, entries[n - 1].parsed, faults);
        if pending.Some? {
          FlushEmptiesTheBatch(u.(batch := s.batch + [pending.value]), faults);
        }
      }
    }
  }
}

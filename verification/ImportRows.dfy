/** Which stored accounts an import may change, and into what. */
module ImportRows {
  import opened Common
  import opened Text
  import opened Importer
  import opened ImportModel
  import opened ImportProof

  /** The line was parsed to this address. */
  predicate Says(entry: Entry, e: string) {
    entry.Line? && entry.parsed.Ok? && entry.parsed.value.email == e
  }

  /** Line i is the first for the address, and the row carries its credentials. */
  ghost predicate FromLine(entries: seq<Entry>, i: nat, e: string, row: Row) {
    && i < |entries| && Says(entries[i], e) && entries[i].parsed.value == row.credentials
    && forall j :: 0 <= j < i ==> !Says(entries[j], e)
  }

  /** What an overwrite leaves alone, and when overwriting is allowed at all. */
  ghost predicate Respects(plan: Plan, was: Row, row: Row) {
    && plan.updateOnConflict
    && row.group == was.group && row.proxy == was.proxy
    && row.remark == if plan.remark == "" then was.remark else Trim(plan.remark)
  }

  /** A row is as it was, or it carries its first line's credentials with an open health verdict. */
  ghost predicate Explained(plan: Plan, start: map<string, Row>, entries: seq<Entry>, e: string, row: Row) {
    || (e in start && row == start[e])
    || (&& (exists i :: FromLine(entries, i, e, row))
        && (if e in start then Respects(plan, start[e], row)
            else row.group == plan.group && row.proxy == "" && row.remark == Trim(plan.remark))
        && row.status == plan.status && row.health == "unknown")
  }

  ghost predicate RowsOk(plan: Plan, start: map<string, Row>, entries: seq<Entry>, s: State) {
    && (forall e :: e in start ==> e in s.rows)
    && (forall e :: e in s.rows && e !in s.seen ==> e in start && s.rows[e] == start[e])
    && (forall e :: e in s.rows ==> Explained(plan, start, entries, e, s.rows[e]))
    && (forall i :: 0 <= i < |s.batch| ==> Explained(plan, start, entries, s.batch[i].email, s.batch[i].row))
  }

  ghost predicate SomeLine(entries: seq<Entry>, e: string) {
    exists i :: 0 <= i < |entries| && Says(entries[i], e)
  }

  /** The addresses seen are those of the lines read. */
  ghost predicate SeenOk(entries: seq<Entry>, seen: set<string>) {
    forall e :: e in seen <==> SomeLine(entries, e)
  }

  lemma PlanLineSees(plan: Plan, s: State, no: nat, entry: Result<Account, Problem>, faults: Faults)
    ensures PlanLine(plan, s, no, entry, faults).0.seen == if entry.Ok? then s.seen + {entry.value.email} else s.seen
  {
  }

  lemma StepSees(plan: Plan, s: State, no: nat, entry: Entry, faults: Faults)
    ensures Step(plan, s, no, entry, faults).seen ==
            if entry.Line? && entry.parsed.Ok? then s.seen + {entry.parsed.value.email} else s.seen
  {
    if entry.Line? {
      PlanLineSees(plan, CountLine(s), no, entry.parsed, faults);
    }
  }

  lemma OneMoreLine(entries: seq<Entry>, n: nat, e: string)
    requires n < |entries|
    ensures SomeLine(entries[..n + 1], e) <==> SomeLine(entries[..n], e) || Says(entries[n], e)
  {
    var fewer, more := entries[..n], entries[..n + 1];
    assert forall i :: 0 <= i < n ==> fewer[i] == more[i];
    assert more[n] == entries[n];
  }

  lemma SeenGrows(entries: seq<Entry>, n: nat, seen: set<string>)
    requires n < |entries| && SeenOk(entries[..n], seen)
    ensures SeenOk(entries[..n + 1], if entries[n].Line? && entries[n].parsed.Ok?
                                     then seen + {entries[n].parsed.value.email} else seen)
  {
    var now := if entries[n].Line? && entries[n].parsed.Ok? then seen + {entries[n].parsed.value.email} else seen;
    forall e ensures e in now <==> SomeLine(entries[..n + 1], e) {
      OneMoreLine(entries, n, e);
    }
  }

  lemma ExplainedGrows(plan: Plan, start: map<string, Row>, entries: seq<Entry>, n: nat, e: string, row: Row)
    requires n < |entries| && Explained(plan, start, entries[..n], e, row)
    ensures Explained(plan, start, entries[..n + 1], e, row)
  {
    if i :| FromLine(entries[..n], i, e, row) {
      assert FromLine(entries[..n + 1], i, e, row);
    }
  }

  lemma RowsOkGrows(plan: Plan, start: map<string, Row>, entries: seq<Entry>, n: nat, s: State)
    requires n < |entries| && RowsOk(plan, start, entries[..n], s)
    ensures RowsOk(plan, start, entries[..n + 1], s)
  {
    forall e | e in s.rows ensures Explained(plan, start, entries[..n + 1], e, s.rows[e]) {
      ExplainedGrows(plan, start, entries, n, e, s.rows[e]);
    }
    forall i | 0 <= i < |s.batch|
      ensures Explained(plan, start, entries[..n + 1], s.batch[i].email, s.batch[i].row)
    {
      ExplainedGrows(plan, start, entries, n, s.batch[i].email, s.batch[i].row);
    }
  }

  lemma FlushKeepsRows(plan: Plan, start: map<string, Row>, entries: seq<Entry>, s: State, faults: Faults)
    requires RowsOk(plan, start, entries, s) && BatchOk(s)
    ensures RowsOk(plan, start, entries, Flush(s, faults))
  {
    var t := Flush(s, faults);
    if s.batch != [] && s.flushes !in faults.flush {
      forall e
        ensures e in t.rows ==> Explained(plan, start, entries, e, t.rows[e])
        ensures e in start ==> e in t.rows
        ensures e in t.rows && e !in s.seen ==> e in start && t.rows[e] == start[e]
      {
        PersistRow(s.rows, s.batch, e);
      }
    }
  }

  /** The entry planned for the last line is explained by that line, the first for its address. */
  lemma PlannedIsExplained(plan: Plan, start: map<string, Row>, entries: seq<Entry>, s: State, faults: Faults)
    requires entries != [] && entries[|entries| - 1].Line? && RowsOk(plan, start, entries, s)
    requires SeenOk(entries[..|entries| - 1], s.seen)
    ensures var (t, p) := PlanLine(plan, s, |entries|, entries[|entries| - 1].parsed, faults);
            && t.rows == s.rows && t.batch == s.batch && s.seen <= t.seen
            && (p.Some? ==> Explained(plan, start, entries, p.value.email, p.value.row))
  {
    var n := |entries| - 1;
    var (t, p) := PlanLine(plan, s, n + 1, entries[n].parsed, faults);
    if p.Some? {
      var e := p.value.email;
      assert !SomeLine(entries[..n], e);
      forall j | 0 <= j < n ensures !Says(entries[j], e) {
        assert entries[..n][j] == entries[j];
      }
      assert FromLine(entries, n, e, p.value.row);
    }
  }

  lemma AppendKeepsRows(plan: Plan, start: map<string, Row>, entries: seq<Entry>, s: State, t: State,
      p: Option<Pending>)
    requires RowsOk(plan, start, entries, s) && t.rows == s.rows && t.batch == s.batch && s.seen <= t.seen
    requires p.Some? ==> Explained(plan, start, entries, p.value.email, p.value.row)
    ensures RowsOk(plan, start, entries, Append(t, p))
  {
  }

  lemma CountingKeepsRows(plan: Plan, start: map<string, Row>, entries: seq<Entry>, s: State)
    requires RowsOk(plan, start, entries, s)
    ensures RowsOk(plan, start, entries, CountLine(s))
  {
  }

  lemma StepKeepsRows(plan: Plan, start: map<string, Row>, entries: seq<Entry>, s: State, faults: Faults)
    requires entries != [] && RowsOk(plan, start, entries, s) && SeenOk(entries[..|entries| - 1], s.seen)
    requires Counts(plan, |start|, s) && BatchOk(s)
    ensures RowsOk(plan, start, entries, Step(plan, s, |entries|, entries[|entries| - 1], faults))
  {
    var no, entry := |entries|, entries[|entries| - 1];
    if entry.Line? {
      var counted := CountLine(s);
      CountingKeepsRows(plan, start, entries, s);
      PlannedIsExplained(plan, start, entries, counted, faults);
      JoinBatchKeeps(plan, |start|, s, no, entry.parsed, faults);
      var (t, pending) := PlanLine(plan, counted, no, entry.parsed, faults);
      AppendKeepsRows(plan, start, entries, counted, t, pending);
      FlushKeepsRows(plan, start, entries, Append(t, pending), faults);
    }
  }

  lemma StartRows(plan: Plan, start: map<string, Row>)
    ensures RowsOk(plan, start, [], Start(start))
  {
  }

  /** One more line read. */
  lemma NextKeepsRows(plan: Plan, start: map<string, Row>, entries: seq<Entry>, s: State, no: nat, faults: Faults)
    requires 0 < no <= |entries| && RowsOk(plan, start, entries[..no - 1], s) && SeenOk(entries[..no - 1], s.seen)
    requires Counts(plan, |start|, s) && BatchOk(s)
    ensures RowsOk(plan, start, entries[..no], Step(plan, s, no, entries[no - 1], faults))
  {
    var read := entries[..no];
    RowsOkGrows(plan, start, entries, no - 1, s);
    assert read[..no - 1] == entries[..no - 1] && read[no - 1] == entries[no - 1];
    StepKeepsRows(plan, start, read, s, faults);
  }

  lemma NextSees(plan: Plan, entries: seq<Entry>, s: State, no: nat, faults: Faults)
    requires 0 < no <= |entries| && SeenOk(entries[..no - 1], s.seen)
    ensures SeenOk(entries[..no], Step(plan, s, no, entries[no - 1], faults).seen)
  {
    SeenGrows(entries, no - 1, s.seen);
    StepSees(plan, s, no, entries[no - 1], faults);
  }

  lemma {:induction false} AfterKeepsRows(plan: Plan, start: map<string, Row>, entries: seq<Entry>, n: nat,
      faults: Faults)
    requires n <= |entries|
    ensures RowsOk(plan, start, entries[..n], After(plan, start, entries, n, faults))
    ensures SeenOk(entries[..n], After(plan, start, entries, n, faults).seen)
  {
    if n == 0 {
      StartRows(plan, start);
      assert entries[..0] == [];
    } else {
      AfterKeeps(plan, start, entries, n - 1, faults);
      AfterKeepsRows(plan, start, entries, n - 1, faults);
      NextKeepsRows(plan, start, entries, After(plan, start, entries, n - 1, faults), n, faults);
      NextSees(plan, entries, After(plan, start, entries, n - 1, faults), n, faults);
    }
  }

  /**
   * No account disappears; an account changes only if its address is on a line, then it carries exactly
   * the first such line's credentials and its old health verdict is void; unless overwriting was asked
   * for nothing stored changes, and if it was, group, proxy and an unspecified remark survive.
   */
  lemma ImportRespectsStoredAccounts(plan: Plan, start: map<string, Row>, entries: seq<Entry>, faults: Faults)
    ensures var rows := Import(plan, start, entries, faults).rows;
            && (forall e :: e in start ==> e in rows)
            && (forall e :: e in rows ==> Explained(plan, start, entries, e, rows[e]))
            && (!plan.updateOnConflict ==> forall e :: e in start ==> rows[e] == start[e])
  {
    AfterKeeps(plan, start, entries, |entries|, faults);
    AfterKeepsRows(plan, start, entries, |entries|, faults);
    assert entries[..|entries|] == entries;
    FlushKeepsRows(plan, start, entries, After(plan, start, entries, |entries|, faults), faults);
  }
}

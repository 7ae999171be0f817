/** What every import keeps, whatever the content and whichever lookups and batches fail. */
module ImportProof {
  import opened Common
  import opened Importer
  import opened ImportModel

  // ---------- the ledger ----------

  /** Every counted line is in exactly one column, and the error list is the first errors, capped. */
  ghost predicate Balanced(l: Ledger) {
    && l.total == l.created + l.updated + l.skipped + l.failed
    && Listed(l)
  }

  ghost predicate Listed(l: Ledger) {
    && |l.errors| == Min(l.skipped + l.failed, MAX_IMPORT_ERRORS)
    && (l.truncated <==> l.skipped + l.failed > MAX_IMPORT_ERRORS)
  }

  lemma {:induction false} FailAllShape(l: Ledger, batch: seq<Pending>)
    requires Listed(l)
    ensures var m := FailAll(l, batch);
            && Listed(m) && m.failed == l.failed + |batch|
            && m.total == l.total && m.created == l.created && m.updated == l.updated && m.skipped == l.skipped
  {
    if batch == [] {
    } else {
      FailAllShape(l, batch[..|batch| - 1]);
    }
  }

  // ---------- one line ----------

  /** A line that is not blank: one column goes up by one, and at most one entry joins the batch. */
  lemma PlanLineShape(plan: Plan, s: State, no: nat, entry: Result<Account, Problem>, faults: Faults)
    requires Balanced(s.ledger)
    ensures var (t, p) := PlanLine(plan, CountLine(s), no, entry, faults);
            && Balanced(t.ledger) && t.ledger.total == s.ledger.total + 1
            && t.rows == s.rows && t.batch == s.batch && t.flushes == s.flushes && s.seen <= t.seen
            && (p.None? ==>
                  t.used == s.used && t.ledger.created == s.ledger.created && t.ledger.updated == s.ledger.updated)
            && (p.Some? ==>
                  && p.value.email !in s.seen && t.seen == s.seen + {p.value.email}
                  && (p.value.isNew <==> p.value.email !in s.rows)
                  && t.used == (if p.value.isNew then s.used + 1 else s.used)
                  && t.ledger.created == (if p.value.isNew then s.ledger.created + 1 else s.ledger.created)
                  && t.ledger.updated == (if p.value.isNew then s.ledger.updated else s.ledger.updated + 1))
  {
  }

  lemma QuotaBounds(plan: Plan, s: State, no: nat, entry: Result<Account, Problem>, faults: Faults)
    ensures var (t, p) := PlanLine(plan, s, no, entry, faults);
            p.Some? && p.value.isNew ==> plan.maxAccounts == UNLIMITED || s.used < plan.maxAccounts
  {
  }

  // ---------- batches ----------

  /** Batch entries are for different emails, all seen, and new exactly when there is no row. */
  ghost predicate GoodBatch(rows: map<string, Row>, batch: seq<Pending>) {
    && (forall i :: 0 <= i < |batch| ==> (batch[i].isNew <==> batch[i].email !in rows))
    && (forall i, j :: 0 <= i < j < |batch| ==> batch[i].email != batch[j].email)
  }

  /** A row after the batch: the entry's if there is one for the email, else what was there. */
  lemma {:induction false} PersistRow(rows: map<string, Row>, batch: seq<Pending>, e: string)
    requires GoodBatch(rows, batch)
    ensures (forall i :: 0 <= i < |batch| ==> batch[i].email != e) ==>
              (e in Persist(rows, batch) <==> e in rows) && (e in rows ==> Persist(rows, batch)[e] == rows[e])
    ensures forall i :: 0 <= i < |batch| && batch[i].email == e ==>
              e in Persist(rows, batch) && Persist(rows, batch)[e] == batch[i].row
  {
    if batch == [] {
    } else {
      PersistRow(rows, batch[..|batch| - 1], e);
    }
  }

  lemma {:induction false} PersistSize(rows: map<string, Row>, batch: seq<Pending>)
    requires GoodBatch(rows, batch)
    ensures |Persist(rows, batch)| == |rows| + CountNew(batch)
  {
    if batch == [] {
    } else {
      var init, last := batch[..|batch| - 1], batch[|batch| - 1];
      PersistSize(rows, init);
      PersistRow(rows, init, last.email);
      var before := Persist(rows, init);
      assert last.email in before <==> !last.isNew;
      assert before[last.email := last.row].Keys == before.Keys + {last.email};
    }
  }

  // ---------- the invariant ----------

  ghost predicate Counts(plan: Plan, start: nat, s: State) {
    && Balanced(s.ledger)
    && |s.rows| + CountNew(s.batch) == start + s.ledger.created
    && s.ledger.created >= CountNew(s.batch)
    && s.ledger.updated >= |s.batch| - CountNew(s.batch)
    && s.used >= |s.rows| + CountNew(s.batch)
    && (plan.maxAccounts != UNLIMITED ==> s.used <= Max(start, plan.maxAccounts))
  }

  ghost predicate BatchOk(s: State) {
    && GoodBatch(s.rows, s.batch)
    && forall i :: 0 <= i < |s.batch| ==> s.batch[i].email in s.seen
  }

  lemma FlushKeeps(plan: Plan, start: nat, s: State, faults: Faults)
    requires Counts(plan, start, s) && BatchOk(s)
    ensures Counts(plan, start, Flush(s, faults)) && BatchOk(Flush(s, faults)) && Flush(s, faults).batch == []
    ensures Flush(s, faults).ledger.total == s.ledger.total
  {
    FailAllShape(s.ledger, s.batch);
    PersistSize(s.rows, s.batch);
  }

  lemma AppendKeeps(rows: map<string, Row>, batch: seq<Pending>, p: Pending)
    requires GoodBatch(rows, batch)
    requires p.isNew <==> p.email !in rows
    requires forall i :: 0 <= i < |batch| ==> batch[i].email != p.email
    ensures GoodBatch(rows, batch + [p])
    ensures CountNew(batch + [p]) == CountNew(batch) + if p.isNew then 1 else 0
  {
    var all := batch + [p];
    assert all[..|all| - 1] == batch && all[|all| - 1] == p;
    assert forall i :: 0 <= i < |batch| ==> all[i] == batch[i];
  }

  lemma JoinKeepsCounts(plan: Plan, start: nat, s: State, no: nat, entry: Result<Account, Problem>, faults: Faults)
    requires Counts(plan, start, s)
    requires var (t, pending) := PlanLine(plan, CountLine(s), no, entry, faults);
             pending.Some? ==>
               CountNew(s.batch + [pending.value]) == CountNew(s.batch) + if pending.value.isNew then 1 else 0
    ensures var (t, pending) := PlanLine(plan, CountLine(s), no, entry, faults);
            Counts(plan, start, Append(t, pending)) && Append(t, pending).ledger.total == s.ledger.total + 1
  {
    PlanLineShape(plan, s, no, entry, faults);
    QuotaBounds(plan, CountLine(s), no, entry, faults);
  }

  lemma JoinKeepsBatch(s: State, t: State, p: Pending)
    requires BatchOk(s) && t.rows == s.rows && t.batch == s.batch && t.seen == s.seen + {p.email}
    requires p.email !in s.seen && (p.isNew <==> p.email !in s.rows)
    ensures BatchOk(Append(t, Some(p)))
    ensures CountNew(s.batch + [p]) == CountNew(s.batch) + if p.isNew then 1 else 0
  {
    AppendKeeps(s.rows, s.batch, p);
  }

  lemma JoinBatchKeeps(plan: Plan, start: nat, s: State, no: nat, entry: Result<Account, Problem>, faults: Faults)
    requires Counts(plan, start, s) && BatchOk(s)
    ensures var (t, pending) := PlanLine(plan, CountLine(s), no, entry, faults);
            var u := Append(t, pending);
            Counts(plan, start, u) && BatchOk(u) && u.ledger.total == s.ledger.total + 1
  {
    PlanLineShape(plan, s, no, entry, faults);
    var (t, pending) := PlanLine(plan, CountLine(s), no, entry, faults);
    if pending.Some? {
      JoinKeepsBatch(s, t, pending.value);
    }
    JoinKeepsCounts(plan, start, s, no, entry, faults);
  }

  lemma StepKeeps(plan: Plan, start: nat, s: State, no: nat, entry: Entry, faults: Faults)
    requires Counts(plan, start, s) && BatchOk(s)
    ensures var t := Step(plan, s, no, entry, faults);
            && Counts(plan, start, t) && BatchOk(t)
            && t.ledger.total == s.ledger.total + if entry.Blank? then 0 else 1
  {
    if entry.Line? {
      JoinBatchKeeps(plan, start, s, no, entry.parsed, faults);
      var (t, pending) := PlanLine(plan, CountLine(s), no, entry.parsed, faults);
      FlushKeeps(plan, start, Append(t, pending), faults);
    }
  }

  lemma StartCounts(plan: Plan, rows: map<string, Row>)
    ensures Counts(plan, |rows|, Start(rows))
  {
  }

  lemma StartBatch(rows: map<string, Row>)
    ensures BatchOk(Start(rows))
  {
  }

  lemma {:induction false} AfterKeeps(plan: Plan, rows: map<string, Row>, entries: seq<Entry>, n: nat, faults: Faults)
    requires n <= |entries|
    ensures Counts(plan, |rows|, After(plan, rows, entries, n, faults))
    ensures BatchOk(After(plan, rows, entries, n, faults))
    ensures After(plan, rows, entries, n, faults).ledger.total == NonBlank(entries[..n])
  {
    if n == 0 {
      StartCounts(plan, rows);
      StartBatch(rows);
    } else {
      var before := After(plan, rows, entries, n - 1, faults);
      AfterKeeps(plan, rows, entries, n - 1, faults);
      StepKeeps(plan, |rows|, before, n, entries[n - 1], faults);
      NonBlankNext(entries, n);
    }
  }

  lemma NonBlankNext(entries: seq<Entry>, n: nat)
    requires 0 < n <= |entries|
    ensures NonBlank(entries[..n]) == NonBlank(entries[..n - 1]) + if entries[n - 1].Blank? then 0 else 1
  {
    assert entries[..n][..n - 1] == entries[..n - 1];
  }

  /**
   * Accounting, for any content and any pattern of failures: every line that is not blank is in one
   * column; the stored accounts grow by exactly `created` and never past the quota (or what there was
   * already); the error list holds as many as there were, two hundred at most, and says whether there
   * were more.
   */
  lemma ImportAccounting(plan: Plan, rows: map<string, Row>, entries: seq<Entry>, faults: Faults)
    ensures var s := Import(plan, rows, entries, faults);
            var l := s.ledger;
            && l.total == NonBlank(entries) == l.created + l.updated + l.skipped + l.failed
            && |s.rows| == |rows| + l.created && l.created >= 0 && l.updated >= 0
            && (plan.maxAccounts != UNLIMITED ==> |s.rows| <= Max(|rows|, plan.maxAccounts))
            && |l.errors| == Min(l.skipped + l.failed, MAX_IMPORT_ERRORS)
            && (l.truncated <==> l.skipped + l.failed > MAX_IMPORT_ERRORS)
  {
    AfterKeeps(plan, rows, entries, |entries|, faults);
    assert entries[..|entries|] == entries;
    FlushKeeps(plan, |rows|, After(plan, rows, entries, |entries|, faults), faults);
  }

  // ---------- batching is invisible ----------

  /** The state with its pending entries written. */
  function Written(s: State): State {
    s.(rows := Persist(s.rows, s.batch), batch := [], flushes := 0)
  }

  lemma PlanLineSeesThroughBatch(plan: Plan, s: State, no: nat, entry: Result<Account, Problem>, faults: Faults)
    requires BatchOk(s)
    ensures var (t, p) := PlanLine(plan, s, no, entry, faults);
            var (u, q) := PlanLine(plan, Written(s), no, entry, faults);
            q == p && u == Written(t) && t.batch == s.batch && t.rows == s.rows
  {
    if entry.Ok? {
      PersistRow(s.rows, s.batch, entry.value.email);
    }
  }

  lemma FlushIsUnseen(s: State, faults: Faults)
    requires faults.flush == {}
    ensures Written(FlushIfFull(s, faults)) == Written(s) && Written(Flush(s, faults)) == Written(s)
  {
  }

  lemma StepMatches(plan: Plan, s: State, no: nat, entry: Entry, faults: Faults)
    requires BatchOk(s) && faults.flush == {}
    ensures Written(Step(plan, s, no, entry, faults)) == StepAtOnce(plan, Written(s), no, entry, faults)
  {
    if entry.Line? {
      var counted := CountLine(s);
      assert Written(counted) == CountLine(Written(s));
      PlanLineSeesThroughBatch(plan, counted, no, entry.parsed, faults);
      var (t, pending) := PlanLine(plan, counted, no, entry.parsed, faults);
      FlushIsUnseen(Append(t, pending), faults);
      if pending.Some? {
        assert (t.batch + [pending.value])[..|t.batch|] == t.batch;
      }
    }
  }

  lemma {:induction false} AfterMatches(plan: Plan, rows: map<string, Row>, entries: seq<Entry>, n: nat, faults: Faults)
    requires n <= |entries| && faults.flush == {}
    ensures Written(After(plan, rows, entries, n, faults)) == ImportAtOnce(plan, rows, entries, n, faults)
  {
    if n == 0 {
    } else {
      AfterMatches(plan, rows, entries, n - 1, faults);
      AfterKeeps(plan, rows, entries, n - 1, faults);
      StepMatches(plan, After(plan, rows, entries, n - 1, faults), n, entries[n - 1], faults);
    }
  }

  /** Unless a transaction fails, importing in batches gives what writing each line at once would give. */
  lemma BatchingIsInvisible(plan: Plan, rows: map<string, Row>, entries: seq<Entry>, faults: Faults)
    requires faults.flush == {}
    ensures var s, plain := Import(plan, rows, entries, faults), ImportAtOnce(plan, rows, entries, |entries|, faults);
            s.rows == plain.rows && s.ledger == plain.ledger
  {
    AfterMatches(plan, rows, entries, |entries|, faults);
  }
}

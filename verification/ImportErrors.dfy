/** Which errors an import lists: every problem there was, in the order met, cut after the first two hundred. */
module ImportErrors {
  import opened Common
  import opened Importer
  import opened ImportModel

  /** Why a line is not taken, if it is not. */
  function LineProblem(plan: Plan, s: State, no: nat, entry: Result<Account, Problem>, faults: Faults): seq<ImportError> {
    match entry
    case Err(problem) => [ImportError(no, "", Malformed(problem))]
    case Ok(parsed) =>
      var email := parsed.email;
      if email in s.seen then [ImportError(no, email, Repeated)]
      else if no in faults.lookup then [ImportError(no, email, LookupFailed)]
      else if email in s.rows && !plan.updateOnConflict then [ImportError(no, email, Exists)]
      else if email !in s.rows && plan.maxAccounts != -1 && s.used >= plan.maxAccounts then [ImportError(no, email, OverQuota)]
      else if no in faults.build then [ImportError(no, email, BuildFailed)]
      else []
  }

  /** Every account of a batch whose transaction fails. */
  function BatchProblems(s: State, faults: Faults): seq<ImportError> {
    if s.flushes in faults.flush
    then seq(|s.batch|, i requires 0 <= i < |s.batch| => ImportError(s.batch[i].line, s.batch[i].email, WriteFailed))
    else []
  }

  function StepProblems(plan: Plan, s: State, no: nat, entry: Entry, faults: Faults): seq<ImportError> {
    if entry.Blank? then []
    else
      var (t, pending) := PlanLine(plan, CountLine(s), no, entry.parsed, faults);
      LineProblem(plan, s, no, entry.parsed, faults)
      + if pending.Some? && |t.batch| + 1 >= BATCH_SIZE then BatchProblems(Append(t, pending), faults) else []
  }

  function Problems(plan: Plan, rows: map<string, Row>, entries: seq<Entry>, n: nat, faults: Faults): seq<ImportError>
    requires n <= |entries|
  {
    if n == 0 then []
    else Problems(plan, rows, entries, n - 1, faults)
         + StepProblems(plan, After(plan, rows, entries, n - 1, faults), n, entries[n - 1], faults)
  }

  /** The ledger lists the first of these problems and says whether there are more. */
  ghost predicate Lists(l: Ledger, all: seq<ImportError>) {
    && l.errors == all[..Min(|all|, MAX_IMPORT_ERRORS)]
    && (l.truncated <==> |all| > MAX_IMPORT_ERRORS)
  }

  lemma AddErrorLists(l: Ledger, all: seq<ImportError>, line: nat, email: string, reason: Reason)
    requires Lists(l, all)
    ensures Lists(AddError(l, line, email, reason), all + [ImportError(line, email, reason)])
  {
    var more := all + [ImportError(line, email, reason)];
    assert more[..|all|] == all && more[..|more|] == more;
    assert |all| >= MAX_IMPORT_ERRORS ==> more[..MAX_IMPORT_ERRORS] == all[..MAX_IMPORT_ERRORS];
  }

  lemma {:induction false} FailAllLists(l: Ledger, all: seq<ImportError>, batch: seq<Pending>)
    requires Lists(l, all)
    ensures Lists(FailAll(l, batch), all + seq(|batch|, i requires 0 <= i < |batch| => ImportError(batch[i].line, batch[i].email, WriteFailed)))
  {
    var failed := seq(|batch|, i requires 0 <= i < |batch| => ImportError(batch[i].line, batch[i].email, WriteFailed));
    if batch == [] {
      assert all + failed == all;
    } else {
      var n := |batch| - 1;
      var init := batch[..n];
      var before := seq(|init|, i requires 0 <= i < |init| => ImportError(init[i].line, init[i].email, WriteFailed));
      FailAllLists(l, all, init);
      assert failed == before + [ImportError(batch[n].line, batch[n].email, WriteFailed)];
      assert all + failed == (all + before) + [ImportError(batch[n].line, batch[n].email, WriteFailed)];
      var m := FailAll(l, init);
      AddErrorLists(m.(failed := m.failed + 1), all + before, batch[n].line, batch[n].email, WriteFailed);
    }
  }

  lemma FlushLists(s: State, all: seq<ImportError>, faults: Faults)
    requires Lists(s.ledger, all)
    ensures Lists(Flush(s, faults).ledger, all + BatchProblems(s, faults))
  {
    if s.flushes in faults.flush {
      FailAllLists(s.ledger, all, s.batch);
    }
    if BatchProblems(s, faults) == [] {
      assert all + BatchProblems(s, faults) == all;
    }
  }

  lemma PlanLineLists(plan: Plan, s: State, all: seq<ImportError>, no: nat, entry: Result<Account, Problem>, faults: Faults)
    requires Lists(s.ledger, all)
    ensures var (t, pending) := PlanLine(plan, s, no, entry, faults);
            && Lists(t.ledger, all + LineProblem(plan, s, no, entry, faults))
            && (pending.Some? <==> LineProblem(plan, s, no, entry, faults) == [])
  {
    var problem := LineProblem(plan, s, no, entry, faults);
    if problem == [] {
      assert all + problem == all;
    } else {
      AddErrorLists(s.ledger.(skipped := s.ledger.skipped + 1), all, no, problem[0].email, problem[0].reason);
      AddErrorLists(s.ledger.(failed := s.ledger.failed + 1), all, no, problem[0].email, problem[0].reason);
      assert problem == [ImportError(no, problem[0].email, problem[0].reason)];
    }
  }

  lemma StepLists(plan: Plan, s: State, all: seq<ImportError>, no: nat, entry: Entry, faults: Faults)
    requires Lists(s.ledger, all)
    ensures Lists(Step(plan, s, no, entry, faults).ledger, all + StepProblems(plan, s, no, entry, faults))
  {
    if entry.Blank? {
      assert all + [] == all;
    } else {
      var counted := CountLine(s);
      var problem := LineProblem(plan, s, no, entry.parsed, faults);
      assert LineProblem(plan, counted, no, entry.parsed, faults) == problem;
      PlanLineLists(plan, counted, all, no, entry.parsed, faults);
      var (t, pending) := PlanLine(plan, counted, no, entry.parsed, faults);
      if pending.Some? {
        FlushLists(Append(t, pending), all + problem, faults);
      }
      assert (all + problem) + BatchProblems(Append(t, pending), faults) == all + (problem + BatchProblems(Append(t, pending), faults));
      assert problem + [] == problem;
    }
  }

  lemma {:induction false} AfterLists(plan: Plan, rows: map<string, Row>, entries: seq<Entry>, n: nat, faults: Faults)
    requires n <= |entries|
    ensures Lists(After(plan, rows, entries, n, faults).ledger, Problems(plan, rows, entries, n, faults))
  {
    if n == 0 {
    } else {
      AfterLists(plan, rows, entries, n - 1, faults);
      StepLists(plan, After(plan, rows, entries, n - 1, faults), Problems(plan, rows, entries, n - 1, faults), n, entries[n - 1], faults);
    }
  }

  /** For any content and any failures the result lists the first two hundred of all the problems, in order. */
  lemma FirstErrorsAreListed(plan: Plan, rows: map<string, Row>, entries: seq<Entry>, faults: Faults)
    ensures var last := After(plan, rows, entries, |entries|, faults);
            var all := Problems(plan, rows, entries, |entries|, faults) + BatchProblems(last, faults);
            var l := Import(plan, rows, entries, faults).ledger;
            && l.errors == (if |all| <= 200 then all else all[..200])
            && (l.truncated <==> |all| > 200)
  {
    AfterLists(plan, rows, entries, |entries|, faults);
    FlushLists(After(plan, rows, entries, |entries|, faults), Problems(plan, rows, entries, |entries|, faults), faults);
  }
}

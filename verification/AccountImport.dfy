/**
 * The import as the service runs it (pkg/service/account_import.go): counters, the set of addresses seen,
 * the quota in use and the batch are updated line by line, and put right when a batch fails.
 */
module AccountImport {
  import opened Common
  import opened Importer
  import opened ImportModel

  class ImportRun {
    const plan: Plan
    var rows: map<string, Row>
    var total: int
    var created: int
    var updated: int
    var skipped: int
    var failed: int
    var errors: seq<ImportError>
    var truncated: bool
    var seen: set<string>
    var used: int
    var batch: seq<Pending>
    var flushes: nat

    constructor (plan: Plan, rows: map<string, Row>)
      ensures this.plan == plan && Now() == Start(rows)
    {
      this.plan, this.rows := plan, rows;
      total, created, updated, skipped, failed, errors, truncated := 0, 0, 0, 0, 0, [], false;
      seen, used, batch, flushes := {}, |rows|, [], 0;
    }

    function Result(): Ledger
      reads this
    {
      Ledger(total, created, updated, skipped, failed, errors, truncated)
    }

    function Now(): State
      reads this
    {
      State(rows, Result(), seen, used, batch, flushes)
    }

    method AddError(line: nat, email: string, reason: Reason)
      modifies this`errors, this`truncated
      ensures Result() == ImportModel.AddError(old(Result()), line, email, reason)
    {
      if |errors| >= MAX_IMPORT_ERRORS {
        truncated := true;
        return;
      }
      errors := errors + [ImportError(line, email, reason)];
    }

    method SkipLine(line: nat, email: string, reason: Reason)
      modifies this`skipped, this`errors, this`truncated
      ensures Result() == ImportModel.Skip(old(Result()), line, email, reason)
    {
      skipped := skipped + 1;
      AddError(line, email, reason);
    }

    method FailLine(line: nat, email: string, reason: Reason)
      modifies this`failed, this`errors, this`truncated
      ensures Result() == ImportModel.Fail(old(Result()), line, email, reason)
    {
      failed := failed + 1;
      AddError(line, email, reason);
    }

    /** The quota is charged before the row is built and refunded if that fails. */
    method PlanLine(no: nat, entry: Result<Account, Problem>, faults: Faults) returns (pending: Option<Pending>)
      modifies this
      ensures (Now(), pending) == ImportModel.PlanLine(plan, old(Now()), no, entry, faults)
    {
      if entry.Err? {
        FailLine(no, "", Malformed(entry.error));
        return None;
      }
      var parsed := entry.value;
      var email := parsed.email;
      if email in seen {
        SkipLine(no, email, Repeated);
        return None;
      }
      seen := seen + {email};
      if no in faults.lookup {
        FailLine(no, email, LookupFailed);
        return None;
      }
      var existing := if email in rows then Some(rows[email]) else None;
      if existing.Some? && !plan.updateOnConflict {
        SkipLine(no, email, Exists);
        return None;
      }
      var isNew := existing.None?;
      if isNew {
        if Allowance(plan.maxAccounts, used, 1) == 0 {
          SkipLine(no, email, OverQuota);
          return None;
        }
        used := used + 1;
      }
      if no in faults.build {
        FailLine(no, email, BuildFailed);
        if isNew {
          used := used - 1;
        }
        return None;
      }
      if isNew {
        created := created + 1;
      } else {
        updated := updated + 1;
      }
      return Some(Pending(no, email, Build(plan, parsed, existing), isNew));
    }

    /** Writes one transaction; when it fails at row `at` (or at the commit) nothing of it stays. */
    method PersistBatch(fails: bool, at: nat) returns (ok: bool)
      modifies this`rows
      ensures ok == !fails
      ensures rows == if ok then Persist(old(rows), batch) else old(rows)
    {
      var before := rows;
      var i := 0;
      while i < |batch|
        invariant i <= |batch| && rows == Persist(before, batch[..i])
      {
        if fails && i == at {
          rows := before;
          return false;
        }
        assert batch[..i + 1][..i] == batch[..i];
        rows := rows[batch[i].email := batch[i].row];
        i := i + 1;
      }
      assert batch[..i] == batch;
      if fails {
        rows := before;
      }
      return !fails;
    }

    method Flush(faults: Faults, at: nat)
      modifies this
      ensures Now() == ImportModel.Flush(old(Now()), faults)
    {
      if |batch| == 0 {
        return;
      }
      var ok := PersistBatch(flushes in faults.flush, at);
      if !ok {
        var i := 0;
        while i < |batch|
          invariant i <= |batch|
          invariant Result() == FailAll(old(Result()), batch[..i])
          invariant Now() == old(Now()).(ledger := Result())
        {
          assert batch[..i + 1][..i] == batch[..i];
          FailLine(batch[i].line, batch[i].email, WriteFailed);
          i := i + 1;
        }
        assert batch[..i] == batch;
        created := created - CountNew(batch);
        updated := updated - (|batch| - CountNew(batch));
      }
      batch, flushes := [], flushes + 1;
    }

    /** One pass of the loop: a line that is not blank is counted and planned, and a full batch written. */
    method ImportLine(no: nat, entry: Entry, faults: Faults, at: nat)
      modifies this
      ensures Now() == Step(plan, old(Now()), no, entry, faults)
    {
      if entry.Blank? {
        return;
      }
      total := total + 1;
      var pending := PlanLine(no, entry.parsed, faults);
      if pending.None? {
        return;
      }
      batch := batch + [pending.value];
      if |batch| >= BATCH_SIZE {
        Flush(faults, at);
      }
    }

    /** The whole run over the content, line by line, and what is left in the batch at the end. */
    method Import(content: string, faults: Faults, at: nat)
      requires Now() == Start(rows)
      modifies this
      ensures Now() == ImportModel.Import(plan, old(rows), ReadAll(Lines(content), plan.opts), faults)
    {
      var lines := Lines(content);
      ghost var start, entries := rows, ReadAll(lines, plan.opts);
      for i := 0 to |lines|
        invariant Now() == After(plan, start, entries, i, faults)
      {
        ImportLine(i + 1, Read(lines[i], plan.opts), faults, at);
      }
      Flush(faults, at);
    }
  }
}

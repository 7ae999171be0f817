/**
 * Importing many accounts from pasted text (pkg/service/account_import.go): what each line, each batch
 * and the whole run do to the stored accounts and to the reported counters.
 */
module ImportModel {
  import opened Common
  import opened Text
  import opened Importer

  const BATCH_SIZE: nat := 500
  const MAX_IMPORT_ERRORS: nat := 200
  const UNLIMITED: int := -1

  /** An account row; what an import does not carry (group, remark, proxies) belongs to the user. */
  datatype Row = Row(
    credentials: Account, group: string, status: string, remark: string, proxy: string, health: string)

  datatype Reason =
    | Malformed(problem: Problem) | Repeated | Exists | LookupFailed | OverQuota | BuildFailed | WriteFailed

  datatype ImportError = ImportError(line: nat, email: string, reason: Reason)

  /** The result the caller sees. */
  datatype Ledger = Ledger(
    total: int, created: int, updated: int, skipped: int, failed: int,
    errors: seq<ImportError>, truncated: bool)

  datatype Pending = Pending(line: nat, email: string, row: Row, isNew: bool)

  datatype State = State(
    rows: map<string, Row>, ledger: Ledger, seen: set<string>, used: int, batch: seq<Pending>, flushes: nat)

  /** What stays fixed during a run. */
  datatype Plan = Plan(
    opts: Options, group: string, status: string, remark: string, updateOnConflict: bool, maxAccounts: int)

  /** Lines whose lookup or encryption fails, and batches whose transaction does. */
  datatype Faults = Faults(lookup: set<nat>, build: set<nat>, flush: set<nat>)

  /** A line of the content, read: blank, or what the parser makes of it. */
  datatype Entry = Blank | Line(parsed: Result<Account, Problem>)

  function Read(line: string, opts: Options): Entry {
    if Trim(line) == "" then Blank else Line(ParseLine(line, opts))
  }

  function ReadAll(lines: seq<string>, opts: Options): (r: seq<Entry>)
    ensures |r| == |lines|
  {
    seq(|lines|, i requires 0 <= i < |lines| => Read(lines[i], opts))
  }

  function Min(a: int, b: int): int {
    if a < b then a else b
  }

  function Max(a: int, b: int): int {
    if a < b then b else a
  }

  /** How many of `want` the quota still allows. */
  function Allowance(limit: int, current: int, want: int): int {
    if limit == UNLIMITED then want
    else if limit - current < 0 then 0
    else Min(limit - current, want)
  }

  // ---------- the ledger ----------

  function AddError(l: Ledger, line: nat, email: string, reason: Reason): Ledger {
    if |l.errors| >= MAX_IMPORT_ERRORS then l.(truncated := true)
    else l.(errors := l.errors + [ImportError(line, email, reason)])
  }

  function Skip(l: Ledger, line: nat, email: string, reason: Reason): Ledger {
    AddError(l.(skipped := l.skipped + 1), line, email, reason)
  }

  function Fail(l: Ledger, line: nat, email: string, reason: Reason): Ledger {
    AddError(l.(failed := l.failed + 1), line, email, reason)
  }

  // ---------- one line ----------

  /** An overwritten account keeps its group, its proxy and, unless a new one is given, its remark. */
  function Build(plan: Plan, parsed: Account, existing: Option<Row>): Row {
    match existing
    case None => Row(parsed, plan.group, plan.status, Trim(plan.remark), "", "unknown")
    case Some(was) =>
      Row(parsed, was.group, plan.status, if plan.remark == "" then was.remark else Trim(plan.remark),
          was.proxy, "unknown")
  }

  /** Parse, look for repetition and conflict, charge the quota, assemble; or record why not. */
  function PlanLine(plan: Plan, s: State, no: nat, entry: Result<Account, Problem>, faults: Faults)
    : (State, Option<Pending>)
  {
    match entry
    case Err(problem) => (s.(ledger := Fail(s.ledger, no, "", Malformed(problem))), None)
    case Ok(parsed) =>
      var email := parsed.email;
      if email in s.seen then (s.(ledger := Skip(s.ledger, no, email, Repeated)), None)
      else
        var t := s.(seen := s.seen + {email});
        if no in faults.lookup then (t.(ledger := Fail(s.ledger, no, email, LookupFailed)), None)
        else if email in s.rows && !plan.updateOnConflict then (t.(ledger := Skip(s.ledger, no, email, Exists)), None)
        else
          var isNew := email !in s.rows;
          if isNew && Allowance(plan.maxAccounts, s.used, 1) == 0
          then (t.(ledger := Skip(s.ledger, no, email, OverQuota)), None)
          else if no in faults.build then (t.(ledger := Fail(s.ledger, no, email, BuildFailed)), None)
          else
            var row := Build(plan, parsed, if isNew then None else Some(s.rows[email]));
            var ledger := if isNew then s.ledger.(created := s.ledger.created + 1)
                          else s.ledger.(updated := s.ledger.updated + 1);
            (t.(ledger := ledger, used := if isNew then s.used + 1 else s.used),
             Some(Pending(no, email, row, isNew)))
  }

  // ---------- batches ----------

  function CountNew(batch: seq<Pending>): (n: nat)
    ensures n <= |batch|
  {
    if batch == [] then 0
    else CountNew(batch[..|batch| - 1]) + if batch[|batch| - 1].isNew then 1 else 0
  }

  function Persist(rows: map<string, Row>, batch: seq<Pending>): map<string, Row> {
    if batch == [] then rows
    else
      var last := batch[|batch| - 1];
      Persist(rows, batch[..|batch| - 1])[last.email := last.row]
  }

  function FailAll(l: Ledger, batch: seq<Pending>): Ledger {
    if batch == [] then l
    else
      var last := batch[|batch| - 1];
      Fail(FailAll(l, batch[..|batch| - 1]), last.line, last.email, WriteFailed)
  }

  /** A failed batch writes nothing and turns its optimistic counts into failures. */
  function Flush(s: State, faults: Faults): State {
    if s.batch == [] then s
    else if s.flushes in faults.flush then
      var l, news := FailAll(s.ledger, s.batch), CountNew(s.batch);
      s.(ledger := l.(created := l.created - news, updated := l.updated - (|s.batch| - news)),
         batch := [], flushes := s.flushes + 1)
    else s.(rows := Persist(s.rows, s.batch), batch := [], flushes := s.flushes + 1)
  }

  // ---------- the run ----------

  function CountLine(s: State): State {
    s.(ledger := s.ledger.(total := s.ledger.total + 1))
  }

  function Append(s: State, pending: Option<Pending>): State {
    if pending.Some? then s.(batch := s.batch + [pending.value]) else s
  }

  function FlushIfFull(s: State, faults: Faults): State {
    if |s.batch| >= BATCH_SIZE then Flush(s, faults) else s
  }

  function Step(plan: Plan, s: State, no: nat, entry: Entry, faults: Faults): State {
    if entry.Blank? then s
    else
      var (t, pending) := PlanLine(plan, CountLine(s), no, entry.parsed, faults);
      if pending.Some? then FlushIfFull(Append(t, pending), faults) else t
  }

  function Start(rows: map<string, Row>): State {
    State(rows, Ledger(0, 0, 0, 0, 0, [], false), {}, |rows|, [], 0)
  }

  /** The state after the first `n` lines; lines are numbered from one. */
  function After(plan: Plan, rows: map<string, Row>, entries: seq<Entry>, n: nat, faults: Faults): State
    requires n <= |entries|
  {
    if n == 0 then Start(rows) else Step(plan, After(plan, rows, entries, n - 1, faults), n, entries[n - 1], faults)
  }

  function Import(plan: Plan, rows: map<string, Row>, entries: seq<Entry>, faults: Faults): State {
    Flush(After(plan, rows, entries, |entries|, faults), faults)
  }

  // ---------- the plain form: every line written at once ----------

  function Write(rows: map<string, Row>, p: Option<Pending>): map<string, Row> {
    if p.Some? then rows[p.value.email := p.value.row] else rows
  }

  function StepAtOnce(plan: Plan, s: State, no: nat, entry: Entry, faults: Faults): State {
    if entry.Blank? then s
    else
      var (t, pending) := PlanLine(plan, CountLine(s), no, entry.parsed, faults);
      t.(rows := Write(t.rows, pending))
  }

  function ImportAtOnce(plan: Plan, rows: map<string, Row>, entries: seq<Entry>, n: nat, faults: Faults): State
    requires n <= |entries|
  {
    if n == 0 then Start(rows)
    else StepAtOnce(plan, ImportAtOnce(plan, rows, entries, n - 1, faults), n, entries[n - 1], faults)
  }

  // ---------- content ----------

  /** The text between line feeds. */
  function Lines(content: string): (r: seq<string>)
    ensures r != []
  {
    if content == "" then [""]
    else
      var rest := Lines(content[1..]);
      if content[0] == '\n' then [""] + rest else [[content[0]] + rest[0]] + rest[1..]
  }

  /** How many lines are not blank. */
  function NonBlank(entries: seq<Entry>): nat {
    if entries == [] then 0
    else NonBlank(entries[..|entries| - 1]) + if entries[|entries| - 1].Blank? then 0 else 1
  }
}

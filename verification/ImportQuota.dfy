/** How many accounts an import creates when nothing fails: exactly what the quota allows. */
module ImportQuota {
  import opened Common
  import opened Importer
  import opened ImportModel
  import opened ImportProof
  import opened ImportRows

  ghost predicate NothingFails(faults: Faults) {
    faults.lookup == {} && faults.build == {} && faults.flush == {}
  }

  /** Created and in use, against the number of new addresses seen. */
  ghost predicate Filled(limit: int, start: map<string, Row>, created: int, used: int, seen: set<string>) {
    && used == |start| + created
    && created == Allowance(limit, |start|, |seen - start.Keys|)
  }

  lemma OneMoreWanted(limit: int, start: nat, n: nat, created: int)
    requires created == Allowance(limit, start, n)
    ensures Allowance(limit, start, n + 1) == created + Allowance(limit, start + created, 1)
  {
  }

  /** What one line does to the three of them. */
  lemma LineEffect(plan: Plan, s: State, no: nat, entry: Result<Account, Problem>, faults: Faults)
    requires NothingFails(faults)
    ensures var t := PlanLine(plan, s, no, entry, faults).0;
            if entry.Err? || entry.value.email in s.seen then
              t.ledger.created == s.ledger.created && t.used == s.used && t.seen == s.seen
            else
              && t.seen == s.seen + {entry.value.email}
              && var n := if entry.value.email in s.rows then 0 else Allowance(plan.maxAccounts, s.used, 1);
                 t.ledger.created == s.ledger.created + n && t.used == s.used + n
  {
  }

  lemma OneMoreSeen(seen: set<string>, known: set<string>, e: string)
    requires e !in seen
    ensures |seen + {e} - known| == |seen - known| + if e in known then 0 else 1
  {
    if e in known {
      assert seen + {e} - known == seen - known;
    } else {
      assert seen + {e} - known == (seen - known) + {e};
    }
  }

  /** An address seen for the first time takes one more place if there is one. */
  lemma AddressFills(limit: int, start: map<string, Row>, created: int, used: int, seen: set<string>, e: string)
    requires Filled(limit, start, created, used, seen) && e !in seen
    ensures var n := if e in start then 0 else Allowance(limit, used, 1);
            Filled(limit, start, created + n, used + n, seen + {e})
  {
    OneMoreSeen(seen, start.Keys, e);
    OneMoreWanted(limit, |start|, |seen - start.Keys|, created);
  }

  ghost predicate StateFilled(plan: Plan, start: map<string, Row>, s: State) {
    Filled(plan.maxAccounts, start, s.ledger.created, s.used, s.seen)
  }

  lemma FlushChangesNoCounts(s: State, faults: Faults)
    requires NothingFails(faults)
    ensures var t := Flush(s, faults);
            t.ledger == s.ledger && t.used == s.used && t.seen == s.seen
  {
  }

  /** An address not seen yet has an account exactly if it had one at the start. */
  ghost predicate UnseenAsBefore(start: map<string, Row>, s: State) {
    forall e :: e !in s.seen ==> (e in s.rows <==> e in start)
  }

  lemma AfterLeavesUnseen(plan: Plan, start: map<string, Row>, entries: seq<Entry>, n: nat, faults: Faults)
    requires n <= |entries|
    ensures UnseenAsBefore(start, After(plan, start, entries, n, faults))
  {
    AfterKeepsRows(plan, start, entries, n, faults);
  }

  lemma LineFills(plan: Plan, start: map<string, Row>, s: State, no: nat,
                  entry: Result<Account, Problem>, faults: Faults)
    requires NothingFails(faults) && StateFilled(plan, start, s)
    requires UnseenAsBefore(start, s)
    ensures StateFilled(plan, start, PlanLine(plan, s, no, entry, faults).0)
  {
    LineEffect(plan, s, no, entry, faults);
    if entry.Ok? && entry.value.email !in s.seen {
      AddressFills(plan.maxAccounts, start, s.ledger.created, s.used, s.seen, entry.value.email);
    }
  }

  /** Queueing and writing change no counts. */
  lemma StepCounts(plan: Plan, s: State, no: nat, entry: Entry, faults: Faults)
    requires NothingFails(faults) && entry.Line?
    ensures var t, u := PlanLine(plan, CountLine(s), no, entry.parsed, faults).0, Step(plan, s, no, entry, faults);
            u.ledger == t.ledger && u.used == t.used && u.seen == t.seen
  {
    var (t, pending) := PlanLine(plan, CountLine(s), no, entry.parsed, faults);
    FlushChangesNoCounts(Append(t, pending), faults);
  }

  lemma StepFills(plan: Plan, start: map<string, Row>, s: State, no: nat, entry: Entry, faults: Faults)
    requires NothingFails(faults) && StateFilled(plan, start, s) && UnseenAsBefore(start, s)
    ensures StateFilled(plan, start, Step(plan, s, no, entry, faults))
  {
    if entry.Line? {
      StepCounts(plan, s, no, entry, faults);
      LineFills(plan, start, CountLine(s), no, entry.parsed, faults);
    }
  }

  lemma StartFills(plan: Plan, start: map<string, Row>)
    ensures StateFilled(plan, start, Start(start))
  {
    assert {} - start.Keys == {};
  }

  lemma {:induction false} AfterFills(plan: Plan, start: map<string, Row>, entries: seq<Entry>, n: nat, faults: Faults)
    requires n <= |entries| && NothingFails(faults)
    ensures StateFilled(plan, start, After(plan, start, entries, n, faults))
  {
    if n == 0 {
      StartFills(plan, start);
    } else {
      AfterFills(plan, start, entries, n - 1, faults);
      AfterLeavesUnseen(plan, start, entries, n - 1, faults);
      StepFills(plan, start, After(plan, start, entries, n - 1, faults), n, entries[n - 1], faults);
    }
  }

  /** The different addresses on the lines that had no account before. */
  ghost function NewAddresses(entries: seq<Entry>, start: map<string, Row>): set<string> {
    set i | 0 <= i < |entries| && entries[i].Line? && entries[i].parsed.Ok?
            && entries[i].parsed.value.email !in start :: entries[i].parsed.value.email
  }

  lemma SeenAreNew(entries: seq<Entry>, start: map<string, Row>, seen: set<string>)
    requires SeenOk(entries, seen)
    ensures seen - start.Keys == NewAddresses(entries, start)
  {
    forall e ensures e in seen - start.Keys <==> e in NewAddresses(entries, start) {
      if SomeLine(entries, e) {
        var i :| 0 <= i < |entries| && Says(entries[i], e);
      }
    }
  }

  /**
   * Without failures an import creates an account for every new address while there is room: all n of them
   * when the tenant has no limit (-1) or the limit allows it, otherwise just as many as fill it up.
   */
  lemma ImportFillsTheQuota(plan: Plan, start: map<string, Row>, entries: seq<Entry>, faults: Faults)
    requires NothingFails(faults)
    ensures var s, n := Import(plan, start, entries, faults), |NewAddresses(entries, start)|;
            && |s.rows| == |start| + s.ledger.created
            && 0 <= s.ledger.created <= n
            && (s.ledger.created < n ==> plan.maxAccounts != -1 && |s.rows| >= plan.maxAccounts)
            && (s.ledger.created > 0 && plan.maxAccounts != -1 ==> |s.rows| <= plan.maxAccounts)
  {
    var s := After(plan, start, entries, |entries|, faults);
    AfterFills(plan, start, entries, |entries|, faults);
    AfterKeepsRows(plan, start, entries, |entries|, faults);
    assert entries[..|entries|] == entries;
    SeenAreNew(entries, start, s.seen);
    FlushChangesNoCounts(s, faults);
    ImportAccounting(plan, start, entries, faults);
  }
}

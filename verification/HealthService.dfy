/**
 * The service over stored rows: checks, reading mail, token refreshes and the deletion of invalid accounts,
 * each run by itself, as the steps of Health say.
 */
module HealthService {
  import opened Common
  import opened Health

  datatype Refusal = NoInvalidAccounts | InvalidCountChanged

  /** One visit from the read of the credentials to the last write, with nothing in between. */
  function Visited(s: State, id: Id, task: Task, readable: bool, outcome: Ending, saved: bool, banSaved: bool): State
    requires Live(s, id) && !LocalFailure(outcome)
  {
    var k := |s.calls|;
    var begun := Apply(s, Begin(id, task, readable));
    if begun.calls[k].stage.Over? then begun
    else
      var ending := if begun.calls[k].local.Some? then begun.calls[k].local.value else outcome;
      var recorded := Apply(begun, Record(k, id, task, ending, saved));
      if ending == Upstream(Banned) then Apply(recorded, WriteBan(k, id, banSaved)) else recorded
  }

  /** A visit writes one row at most: the verdict of how it ended, if saved, and a ban the provider reported. */
  lemma VisitWritesOneRow(s: State, id: Id, task: Task, readable: bool, outcome: Ending, saved: bool, banSaved: bool)
    requires Live(s, id) && !LocalFailure(outcome)
    ensures var row := s.rows[id];
            var local := LocalEnding(row.status, readable);
            var verdict := VerdictFor(task, if local.Some? then local.value else outcome);
            var judged := if saved && verdict.Some? then row.(health := verdict.value, judged := Some(row.version)) else row;
            Visited(s, id, task, readable, outcome, saved, banSaved).rows
            == s.rows[id := if local.None? && outcome == Upstream(Banned) && banSaved then judged.(status := BannedStatus) else judged]
  {
    assert s.rows[id := s.rows[id]] == s.rows;
  }

  class HealthService {
    var rows: map<Id, Row>
    var calls: seq<Call>
    var edits: seq<Edit>
    var confirmed: Option<Option<string>>

    constructor ()
      ensures Now() == NO_ACCOUNTS
    {
      rows, calls, edits, confirmed := map[], [], [], None;
    }

    ghost function Now(): State
      reads this
    {
      State(rows, calls, edits, confirmed)
    }

    /** Reads the credentials: what keeps the account from being reached ends the visit, but for a check. */
    method Credential(id: Id, task: Task, readable: bool) returns (local: Option<Ending>)
      requires Live(Now(), id)
      modifies this`calls
      ensures Now() == Apply(old(Now()), Begin(id, task, readable))
      ensures |calls| == |old(calls)| + 1 && local == calls[|old(calls)|].local
    {
      var row := rows[id];
      local := None;
      if row.status == BannedStatus {
        local := Some(KnownBanned);
      } else if row.status == Disabled {
        local := Some(SwitchedOff);
      } else if !readable {
        local := Some(Undecryptable);
      }
      calls := calls + [Call(id, task, row.version, local, if local.Some? && task != CheckTask then Over else Open)];
    }

    method UpdateHealth(id: Id, v: Verdict, version: nat)
      modifies this`rows
      ensures Now() == Judge(old(Now()), id, Some(v), version)
    {
      if id in rows && !rows[id].deleted {
        rows := rows[id := rows[id].(health := v, judged := Some(version))];
      }
    }

    /** The write-back of an access or refresh: the verdict, and a ban as a second write. */
    method WriteResult(k: nat, ending: Ending, saved: bool, banSaved: bool)
      requires k < |calls| && calls[k].stage.Open? && calls[k].local.None? && !LocalFailure(ending)
      modifies this`rows, this`calls
      ensures var id := old(calls)[k].id;
              var recorded := Apply(old(Now()), Record(k, id, old(calls)[k].task, ending, saved));
              Now() == if ending == Upstream(Banned) then Apply(recorded, WriteBan(k, id, banSaved)) else recorded
    {
      var call := calls[k];
      var verdict := HealthOf(ending);
      if call.task == RefreshTask && !(verdict.Some? && verdict.value.condition == Invalid) {
        verdict := None;
      }
      if saved && verdict.Some? {
        UpdateHealth(call.id, verdict.value, call.version);
      }
      calls := calls[k := call.(stage := Over)];
      if ending == Upstream(Banned) && banSaved && call.id in rows && !rows[call.id].deleted {
        rows := rows[call.id := rows[call.id].(status := BannedStatus)];
      }
    }

    /** Only the check records what kept it from the provider. */
    method RecordLocalFailure(k: nat, saved: bool)
      requires k < |calls| && calls[k].stage.Open? && calls[k].local.Some? && calls[k].task == CheckTask
      requires LocalFailure(calls[k].local.value)
      modifies this`rows, this`calls
      ensures Now() == Apply(old(Now()), Record(k, old(calls)[k].id, CheckTask, old(calls)[k].local.value, saved))
    {
      var call := calls[k];
      var verdict := HealthOf(call.local.value);
      if saved && verdict.Some? {
        UpdateHealth(call.id, verdict.value, call.version);
      }
      calls := calls[k := call.(stage := Over)];
    }

    /** One check, access or refresh; None when the account is not there. `outcome` is the provider's part. */
    method Visit(id: Id, task: Task, readable: bool, outcome: Ending, saved: bool, banSaved: bool)
      returns (ending: Option<Ending>)
      requires !LocalFailure(outcome)
      modifies this
      ensures ending.None? <==> !Live(old(Now()), id)
      ensures ending.None? ==> Now() == old(Now())
      ensures ending.Some? ==> Now() == Visited(old(Now()), id, task, readable, outcome, saved, banSaved)
      ensures ending.Some? ==>
                var local := LocalEnding(old(rows)[id].status, readable);
                ending.value == if local.Some? then local.value else outcome
    {
      if id !in rows || rows[id].deleted {
        return None;
      }
      var k := |calls|;
      var local := Credential(id, task, readable);
      if local.Some? {
        if task == CheckTask {
          RecordLocalFailure(k, saved);
        }
        return local;
      }
      WriteResult(k, outcome, saved, banSaved);
      ending := Some(outcome);
    }

    /** Compares the count the user confirmed, then removes what is invalid when the statement runs. */
    method DeleteInvalid(group: Option<string>, expected: nat) returns (removed: Result<nat, Refusal>)
      requires confirmed.None?
      modifies this`rows
      ensures removed.Ok? <==> expected == |InvalidIn(old(Now()), group)| > 0
      ensures removed.Ok? ==> removed.value == expected
                              && Now() == Apply(Apply(old(Now()), Confirm(group, expected)), Sweep)
      ensures removed.Err? ==>
                && Now() == old(Now())
                && (removed.error.NoInvalidAccounts? <==> InvalidIn(old(Now()), group) == {})
    {
      var invalid := set id | id in rows && !rows[id].deleted && rows[id].health.condition == Invalid && InGroup(rows[id], group);
      assert invalid == InvalidIn(Now(), group);
      if |invalid| == 0 {
        return Err(NoInvalidAccounts);
      }
      if expected != |invalid| {
        return Err(InvalidCountChanged);
      }
      assert InvalidIn(Apply(Now(), Confirm(group, expected)), group) == invalid;
      rows := map id | id in rows :: if id in invalid then rows[id].(deleted := true) else rows[id];
      removed := Ok(|invalid|);
    }
  }
}

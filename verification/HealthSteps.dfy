/** What edits, new credentials and the end of a visit do to stored rows, step by step, in plain terms. */
module HealthSteps {
  import opened Common
  import opened Health

  /** The verdict a row carries once its credentials are new: none. */
  ghost predicate Unjudged(row: Row) {
    row.health == Verdict(Unknown, None) && row.judged.None?
  }

  /** An account starts unjudged; new credentials void the verdict and are none of those issued before. */
  lemma CredentialsAreNew(s: State, id: Id, group: string, status: Status, newStatus: Option<Status>)
    ensures id !in s.rows ==>
              var row := Apply(s, Add(id, group, status)).rows[id];
              Unjudged(row) && row.group == group && row.status == status && !row.deleted && row.version == row.issued
    ensures Live(s, id) ==>
              var t := Apply(s, NewCredentials(id, newStatus));
              && Unjudged(t.rows[id]) && t.rows[id].version == t.rows[id].issued == s.rows[id].issued + 1
              && t.rows[id].status == (if newStatus.Some? then newStatus.value else s.rows[id].status)
              && t == s.(rows := s.rows[id := s.rows[id].(health := t.rows[id].health, judged := None, status := t.rows[id].status,
                                                          version := t.rows[id].version, issued := t.rows[id].issued)])
  {
  }

  /** An edit reads the row when it begins, and may be written once. */
  lemma EditsReadFirst(s: State, id: Id)
    requires Live(s, id)
    ensures Apply(s, BeginEdit(id)) == s.(edits := s.edits + [Edit(id, s.rows[id].version, false)])
  {
  }

  /** It writes the status and either new credentials or those it read; a row deleted meanwhile stays as it is. */
  lemma EditsWriteTheRow(s: State, k: nat, id: Id, changed: bool, status: Status)
    requires Enabled(s, WriteEdit(k, id, changed, status))
    ensures var t := Apply(s, WriteEdit(k, id, changed, status));
            && t.calls == s.calls && t.confirmed == s.confirmed
            && t.edits == s.edits[k := s.edits[k].(written := true)]
            && (!Live(s, id) ==> t.rows == s.rows)
            && (Live(s, id) ==>
                  && t.rows == s.rows[id := t.rows[id]]
                  && t.rows[id].status == status && t.rows[id].group == s.rows[id].group && !t.rows[id].deleted
                  && (changed ==> Unjudged(t.rows[id]) && t.rows[id].version == s.rows[id].issued + 1)
                  && (!changed ==> t.rows[id] == s.rows[id].(version := s.edits[k].version, status := status)))
  {
  }

  /** Users choose status and group of accounts that are there. */
  lemma ChoicesAreWritten(s: State, id: Id, status: Status, group: string)
    requires Live(s, id)
    ensures Apply(s, SetStatus(id, status)) == s.(rows := s.rows[id := s.rows[id].(status := status)])
    ensures Apply(s, Move(id, group)) == s.(rows := s.rows[id := s.rows[id].(group := group)])
  {
  }

  /** After its record a visit is over, or has a ban left to write, and then it is over. */
  lemma VisitsEnd(s: State, k: nat, id: Id, task: Task, e: Ending, saved: bool)
    ensures Enabled(s, Record(k, id, task, e, saved)) ==>
              k < |s.calls| && s.calls[k].id == id && s.calls[k].task == task && s.calls[k].stage.Open?
    ensures Enabled(s, WriteBan(k, id, saved)) ==> k < |s.calls| && s.calls[k].id == id && s.calls[k].stage.Banning?
    ensures Enabled(s, Record(k, id, task, e, saved)) ==>
              var t := Apply(s, Record(k, id, task, e, saved));
              && t.calls == s.calls[k := s.calls[k].(stage := t.calls[k].stage)]
              && t.calls[k].stage == (if e == Upstream(Banned) then Banning else Over)
              && (!saved ==> t.rows == s.rows)
    ensures Enabled(s, WriteBan(k, id, saved)) ==>
              var t := Apply(s, WriteBan(k, id, saved));
              && t.calls == s.calls[k := s.calls[k].(stage := Over)]
              && t.rows == (if saved && Live(s, id) then s.rows[id := s.rows[id].(status := BannedStatus)] else s.rows)
  {
    assert Live(s, id) ==> s.rows[id := s.rows[id]] == s.rows;
  }

  /** The invalid accounts of a group, or of all: those stored, not deleted, and judged invalid. */
  lemma InvalidAreCounted(s: State, group: Option<string>, id: Id)
    ensures id in InvalidIn(s, group) <==>
              && id in s.rows && !s.rows[id].deleted && s.rows[id].health.condition == Invalid
              && (group.None? || s.rows[id].group == group.value)
  {
  }

  // ---------- once each ----------

  function Records(actions: seq<Action>, k: nat): nat {
    if actions == [] then 0
    else Records(actions[..|actions| - 1], k) + if actions[|actions| - 1].Record? && actions[|actions| - 1].call == k then 1 else 0
  }

  function Writes(actions: seq<Action>, k: nat): nat {
    if actions == [] then 0
    else Writes(actions[..|actions| - 1], k) + if actions[|actions| - 1].WriteEdit? && actions[|actions| - 1].edit == k then 1 else 0
  }

  lemma {:induction false} CallsOnlyAdvance(s: State, actions: seq<Action>, k: nat)
    requires CanRun(s, actions) && k < |s.calls|
    ensures k < |RunFrom(s, actions).calls|
    ensures Records(actions, k) == (if s.calls[k].stage.Open? && !RunFrom(s, actions).calls[k].stage.Open? then 1 else 0)
    ensures !s.calls[k].stage.Open? ==> !RunFrom(s, actions).calls[k].stage.Open?
    decreases |actions|
  {
    if actions != [] {
      CallsOnlyAdvance(s, actions[..|actions| - 1], k);
    }
  }

  lemma {:induction false} EditsOnlyAdvance(s: State, actions: seq<Action>, k: nat)
    requires CanRun(s, actions) && k < |s.edits|
    ensures k < |RunFrom(s, actions).edits|
    ensures Writes(actions, k) == (if !s.edits[k].written && RunFrom(s, actions).edits[k].written then 1 else 0)
    ensures s.edits[k].written ==> RunFrom(s, actions).edits[k].written
    decreases |actions|
  {
    if actions != [] {
      EditsOnlyAdvance(s, actions[..|actions| - 1], k);
    }
  }

  /** In any run a visit records once at most and an edit is written once at most. */
  lemma OnceEach(s: State, actions: seq<Action>, k: nat)
    requires CanRun(s, actions)
    ensures k < |s.calls| ==> Records(actions, k) <= 1
    ensures k < |s.edits| ==> Writes(actions, k) <= 1
  {
    if k < |s.calls| {
      CallsOnlyAdvance(s, actions, k);
    }
    if k < |s.edits| {
      EditsOnlyAdvance(s, actions, k);
    }
  }
}

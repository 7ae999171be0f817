/** What holds over whole runs of visits, edits, imports and deletions. */
module HealthRuns {
  import opened Common
  import opened Health

  // ---------- the verdict ----------

  /** Checks record everything they can tell, reading mail what the mailbox said, a refresh only the worst. */
  function EndingSays(task: Task, e: Ending): Option<Verdict> {
    match task
    case CheckTask => HealthOf(e)
    case AccessTask => if e.Success? || e.Upstream? then HealthOf(e) else None
    case RefreshTask => if e.Upstream? && AccountsOwnFault(e.kind) then Some(Verdict(Invalid, Some(e.kind))) else None
  }

  /** The verdict an action leaves on record for an account, if any. */
  function Recorded(a: Action, id: Id): Option<Verdict> {
    match a
    case Record(_, i, task, e, saved) =>
      if i == id && saved then EndingSays(task, e) else None
    case Add(i, _, _) => if i == id then Some(Verdict(Unknown, None)) else None
    case NewCredentials(i, _) => if i == id then Some(Verdict(Unknown, None)) else None
    case WriteEdit(_, i, changed, _) => if i == id && changed then Some(Verdict(Unknown, None)) else None
    case _ => None
  }

  /** The latest one on record, from the history alone. */
  function Latest(actions: seq<Action>, id: Id): Verdict
    decreases |actions|
  {
    if actions == [] then Verdict(Unknown, None)
    else
      var last := actions[|actions| - 1];
      if Recorded(last, id).Some? then Recorded(last, id).value else Latest(actions[..|actions| - 1], id)
  }

  lemma StepMatches(s: State, a: Action, id: Id)
    requires Enabled(s, a) && Live(Apply(s, a), id)
    ensures Recorded(a, id).Some? ==> Apply(s, a).rows[id].health == Recorded(a, id).value
    ensures Recorded(a, id).None? ==> Live(s, id) && Apply(s, a).rows[id].health == s.rows[id].health
  {
  }

  /** In every run, a live account's health is the latest verdict recorded since it was last reset. */
  lemma {:induction false} HealthIsLatestVerdict(actions: seq<Action>, id: Id)
    requires CanRun(NO_ACCOUNTS, actions) && Live(RunFrom(NO_ACCOUNTS, actions), id)
    ensures RunFrom(NO_ACCOUNTS, actions).rows[id].health == Latest(actions, id)
    decreases |actions|
  {
    if actions == [] {
    } else {
      var before, last := actions[..|actions| - 1], actions[|actions| - 1];
      StepMatches(RunFrom(NO_ACCOUNTS, before), last, id);
      if Recorded(last, id).None? {
        HealthIsLatestVerdict(before, id);
      }
    }
  }

  predicate AccountsOwnFault(k: Kind) {
    k.Banned? || k.AccountUnavailable? || k.AuthFailed?
  }

  lemma {:induction false} InvalidMeansOwnFault(actions: seq<Action>, id: Id)
    requires Latest(actions, id).condition == Invalid
    ensures Latest(actions, id).kind.Some? && AccountsOwnFault(Latest(actions, id).kind.value)
    decreases |actions|
  {
    if actions == [] {
    } else if Recorded(actions[|actions| - 1], id).None? {
      InvalidMeansOwnFault(actions[..|actions| - 1], id);
    }
  }

  /**
   * A sweep removes exactly the live accounts of the confirmed group whose latest verdict is invalid, and
   * that verdict is always a ban, a refused mailbox or a failed login; every other row is left as it is.
   */
  lemma SweepRemovesOnlyTheInvalid(actions: seq<Action>, id: Id)
    requires CanRun(NO_ACCOUNTS, actions) && Enabled(RunFrom(NO_ACCOUNTS, actions), Sweep)
    requires Live(RunFrom(NO_ACCOUNTS, actions), id)
    ensures var s := RunFrom(NO_ACCOUNTS, actions);
            var t := Apply(s, Sweep);
            && t.confirmed.None? && id in t.rows
            && (t.rows[id].deleted <==>
                  Latest(actions, id).condition == Invalid
                  && (s.confirmed.value.None? || s.rows[id].group == s.confirmed.value.value))
            && (t.rows[id].deleted ==>
                  Latest(actions, id).kind.Some? && AccountsOwnFault(Latest(actions, id).kind.value))
            && (!t.rows[id].deleted ==> t.rows[id] == s.rows[id])
  {
    HealthIsLatestVerdict(actions, id);
    if Latest(actions, id).condition == Invalid {
      InvalidMeansOwnFault(actions, id);
    }
  }

  /** Nothing in between: the number the user confirmed is the number of accounts removed. */
  lemma SweepRemovesAsManyAsConfirmed(s: State, group: Option<string>, expected: nat)
    requires s.confirmed.None?
    ensures var t := Apply(s, Confirm(group, expected));
            && (t.confirmed.Some? <==> expected == |InvalidIn(s, group)| > 0)
            && (t.confirmed.None? ==> t == s)
            && (t.confirmed.Some? ==>
                  && (set id | id in s.rows && Live(s, id) && !Live(Apply(t, Sweep), id)) == InvalidIn(s, group)
                  && |InvalidIn(s, group)| == expected)
  {
    var t := Apply(s, Confirm(group, expected));
    if t.confirmed.Some? {
      assert InvalidIn(t, group) == InvalidIn(s, group);
      assert (set id | id in s.rows && Live(s, id) && !Live(Apply(t, Sweep), id)) == InvalidIn(s, group);
    }
  }

  // ---------- the ban ----------

  /** The status an action writes: a stored ban, a user's choice, or what an import or edit brings along. */
  function StatusWritten(a: Action, id: Id): Option<Status> {
    match a
    case Add(i, _, status) => if i == id then Some(status) else None
    case WriteBan(_, i, saved) => if i == id && saved then Some(BannedStatus) else None
    case SetStatus(i, status) => if i == id then Some(status) else None
    case NewCredentials(i, status) => if i == id then status else None
    case WriteEdit(_, i, _, status) => if i == id then Some(status) else None
    case _ => None
  }

  function LastStatus(actions: seq<Action>, id: Id): Option<Status>
    decreases |actions|
  {
    if actions == [] then None
    else
      var last := actions[|actions| - 1];
      if StatusWritten(last, id).Some? then StatusWritten(last, id) else LastStatus(actions[..|actions| - 1], id)
  }

  lemma StatusStep(s: State, a: Action, id: Id)
    requires Enabled(s, a) && Live(Apply(s, a), id)
    ensures StatusWritten(a, id).Some? ==> Apply(s, a).rows[id].status == StatusWritten(a, id).value
    ensures StatusWritten(a, id).None? ==> Live(s, id) && Apply(s, a).rows[id].status == s.rows[id].status
  {
  }

  /** Continuing from any state: the status is the last one written, or what it was. */
  lemma {:induction false} StatusIsLastWritten(s: State, more: seq<Action>, id: Id)
    requires CanRun(s, more) && Live(RunFrom(s, more), id) && (LastStatus(more, id).None? ==> Live(s, id))
    ensures var last := LastStatus(more, id);
            RunFrom(s, more).rows[id].status == if last.Some? then last.value else s.rows[id].status
    decreases |more|
  {
    if more == [] {
    } else {
      var before, last := more[..|more| - 1], more[|more| - 1];
      StatusStep(RunFrom(s, before), last, id);
      if StatusWritten(last, id).None? {
        StatusIsLastWritten(s, before, id);
      }
    }
  }

  /**
   * After a stored ban the account is still banned if and only if nothing wrote another status since: no
   * user's choice, and no import or edit, which bring a status along, an edit the one it read before.
   */
  lemma BanSurvivesExactly(s: State, id: Id, more: seq<Action>)
    requires Live(s, id) && s.rows[id].status == BannedStatus && CanRun(s, more) && Live(RunFrom(s, more), id)
    ensures RunFrom(s, more).rows[id].status == BannedStatus <==>
              LastStatus(more, id).None? || LastStatus(more, id) == Some(BannedStatus)
  {
    StatusIsLastWritten(s, more, id);
  }

  /** A visit gets past the stored status exactly when the account is active and its credentials are readable. */
  lemma BannedIsRefused(s: State, id: Id, task: Task, readable: bool)
    requires Live(s, id)
    ensures var t := Apply(s, Begin(id, task, readable));
            var call := t.calls[|s.calls|];
            && t.rows == s.rows
            && t == s.(calls := s.calls + [call]) && call.id == id && call.task == task && call.version == s.rows[id].version
            && (call.local.None? <==> s.rows[id].status.Active? && readable)
            && (s.rows[id].status == Disabled ==> call.local == Some(SwitchedOff))
            && (s.rows[id].status.Active? && !readable ==> call.local == Some(Undecryptable))
            && (call.local.None? ==> call.stage.Open?)
            && (s.rows[id].status == BannedStatus ==>
                  call.local == Some(KnownBanned) && (call.stage.Over? <==> !task.CheckTask?))
  {
  }

  /** The provider bans an account; importing it again, with overwriting, lifts the ban. */
  lemma ImportLiftsTheBan(id: Id, group: string) returns (actions: seq<Action>)
    ensures CanRun(NO_ACCOUNTS, actions) && actions != []
    ensures var n := |actions| - 1;
            && CanRun(NO_ACCOUNTS, actions[..n]) && actions[n] == NewCredentials(id, Some(Active))
            && Live(RunFrom(NO_ACCOUNTS, actions[..n]), id)
            && RunFrom(NO_ACCOUNTS, actions[..n]).rows[id].status == BannedStatus
            && Live(RunFrom(NO_ACCOUNTS, actions), id)
            && RunFrom(NO_ACCOUNTS, actions).rows[id].status == Active
  {
    actions := [];
    var steps := [Add(id, group, Active), Begin(id, AccessTask, true),
                  Record(0, id, AccessTask, Upstream(Banned), true), WriteBan(0, id, true)];
    OneMore(NO_ACCOUNTS, [], steps[0]);
    OneMore(NO_ACCOUNTS, [] + [steps[0]], steps[1]);
    OneMore(NO_ACCOUNTS, [] + [steps[0]] + [steps[1]], steps[2]);
    OneMore(NO_ACCOUNTS, [] + [steps[0]] + [steps[1]] + [steps[2]], steps[3]);
    var banned := [] + [steps[0]] + [steps[1]] + [steps[2]] + [steps[3]];
    OneMore(NO_ACCOUNTS, banned, NewCredentials(id, Some(Active)));
    actions := banned + [NewCredentials(id, Some(Active))];
    assert actions[..|actions| - 1] == banned;
  }

  /** The write that stores a ban may fail: then the verdict is invalid while the account stays active. */
  lemma UnsavedBanIsForgotten(s: State, k: nat, id: Id)
    requires Enabled(s, WriteBan(k, id, false))
    ensures Apply(s, WriteBan(k, id, false)).rows == s.rows && Apply(s, WriteBan(k, id, false)).calls[k].stage.Over?
  {
  }

  // ---------- verdicts about replaced credentials ----------

  ghost predicate RowsIssued(s: State) {
    forall id :: id in s.rows ==> s.rows[id].version <= s.rows[id].issued
  }

  ghost predicate CallsIssued(s: State) {
    forall k :: 0 <= k < |s.calls| ==>
      s.calls[k].id in s.rows && s.calls[k].version <= s.rows[s.calls[k].id].issued
  }

  ghost predicate EditsIssued(s: State) {
    forall k :: 0 <= k < |s.edits| ==>
      s.edits[k].id in s.rows && s.edits[k].version <= s.rows[s.edits[k].id].issued
  }

  /** Visits and edits read credentials that were issued. */
  ghost predicate Versions(s: State) {
    RowsIssued(s) && CallsIssued(s) && EditsIssued(s)
  }

  lemma IssuedOnlyGrows(s: State, a: Action, id: Id)
    requires Enabled(s, a) && id in s.rows
    ensures id in Apply(s, a).rows && s.rows[id].issued <= Apply(s, a).rows[id].issued
  {
  }

  lemma StepKeepsRowsIssued(s: State, a: Action)
    requires Enabled(s, a) && RowsIssued(s) && EditsIssued(s)
    ensures RowsIssued(Apply(s, a))
  {
  }

  lemma StepKeepsCallsIssued(s: State, a: Action)
    requires Enabled(s, a) && RowsIssued(s) && CallsIssued(s)
    ensures CallsIssued(Apply(s, a))
  {
    var t := Apply(s, a);
    forall k | 0 <= k < |s.calls| ensures s.calls[k].id in t.rows && s.calls[k].version <= t.rows[s.calls[k].id].issued {
      IssuedOnlyGrows(s, a, s.calls[k].id);
    }
  }

  lemma StepKeepsEditsIssued(s: State, a: Action)
    requires Enabled(s, a) && RowsIssued(s) && EditsIssued(s)
    ensures EditsIssued(Apply(s, a))
  {
    var t := Apply(s, a);
    forall k | 0 <= k < |s.edits| ensures s.edits[k].id in t.rows && s.edits[k].version <= t.rows[s.edits[k].id].issued {
      IssuedOnlyGrows(s, a, s.edits[k].id);
    }
  }

  lemma StepKeepsVersions(s: State, a: Action)
    requires Enabled(s, a) && Versions(s)
    ensures Versions(Apply(s, a))
  {
    StepKeepsRowsIssued(s, a);
    StepKeepsCallsIssued(s, a);
    StepKeepsEditsIssued(s, a);
  }

  /** It can still record an invalid verdict. */
  predicate CanCondemn(c: Call) {
    c.stage.Open? && (c.local.None? || c.local == Some(KnownBanned))
  }

  /** Some visit under way can condemn the account for credentials it no longer has. */
  ghost predicate StaleVisit(s: State, id: Id) {
    exists k :: 0 <= k < |s.calls| && StaleCall(s, k, id)
  }

  /** Some edit under way can put back credentials the account no longer has. */
  ghost predicate StaleEdit(s: State, id: Id) {
    exists k :: 0 <= k < |s.edits| && StaleWrite(s, k, id)
  }

  predicate StaleWrite(s: State, k: nat, id: Id) {
    && k < |s.edits| && s.edits[k].id == id && !s.edits[k].written
    && id in s.rows && s.edits[k].version != s.rows[id].version
  }

  predicate StaleCall(s: State, k: nat, id: Id) {
    && k < |s.calls| && s.calls[k].id == id && CanCondemn(s.calls[k])
    && id in s.rows && s.calls[k].version != s.rows[id].version
  }

  /** An invalid verdict is about the credentials the account has. */
  predicate JudgedFairly(s: State, id: Id) {
    id in s.rows && (s.rows[id].health.condition == Invalid ==> s.rows[id].judged == Some(s.rows[id].version))
  }

  predicate KeepsCredentials(a: Action, id: Id) {
    !(a.NewCredentials? && a.id == id) && !(a.WriteEdit? && a.id == id && a.changed)
  }

  predicate AllKeepCredentials(actions: seq<Action>, id: Id) {
    forall i :: 0 <= i < |actions| ==> KeepsCredentials(actions[i], id)
  }

  /** Only checks record a failure before the provider; other visits with one are over at once. */
  ghost predicate LocalOnlyInChecks(s: State) {
    forall k :: 0 <= k < |s.calls| && s.calls[k].local.Some? ==>
      LocalFailure(s.calls[k].local.value) && (s.calls[k].stage.Open? ==> s.calls[k].task.CheckTask?)
  }

  lemma OnlyOpenCallsJudge(s: State, a: Action, id: Id)
    requires Enabled(s, a) && a.Record? && a.id == id && JudgedFairly(s, id) && !StaleVisit(s, id)
    requires LocalOnlyInChecks(s)
    ensures JudgedFairly(Apply(s, a), id)
  {
    assert !StaleCall(s, a.call, id);
    assert s.calls[a.call].local.Some? ==> LocalFailure(s.calls[a.call].local.value);
  }

  lemma FairStep(s: State, a: Action, id: Id)
    requires Enabled(s, a) && KeepsCredentials(a, id) && JudgedFairly(s, id) && !StaleVisit(s, id) && !StaleEdit(s, id)
    requires LocalOnlyInChecks(s)
    ensures JudgedFairly(Apply(s, a), id) && !StaleVisit(Apply(s, a), id) && !StaleEdit(Apply(s, a), id)
  {
    var t := Apply(s, a);
    if a.Record? && a.id == id {
      OnlyOpenCallsJudge(s, a, id);
    }
    if a.WriteEdit? {
      assert !StaleWrite(s, a.edit, id);
    }
    assert t.rows[id].version == s.rows[id].version;
    forall k | 0 <= k < |t.calls| ensures !StaleCall(t, k, id) {
      if k < |s.calls| {
        assert !StaleCall(s, k, id);
      }
    }
    forall k | 0 <= k < |t.edits| ensures !StaleWrite(t, k, id) {
      if k < |s.edits| {
        assert !StaleWrite(s, k, id);
      }
    }
  }

  lemma {:induction false} FairRun(s: State, more: seq<Action>, id: Id)
    requires CanRun(s, more) && AllKeepCredentials(more, id)
    requires JudgedFairly(s, id) && !StaleVisit(s, id) && !StaleEdit(s, id) && LocalOnlyInChecks(s)
    ensures var t := RunFrom(s, more);
            JudgedFairly(t, id) && !StaleVisit(t, id) && !StaleEdit(t, id) && LocalOnlyInChecks(t)
    decreases |more|
  {
    if more == [] {
    } else {
      var before, last := more[..|more| - 1], more[|more| - 1];
      assert AllKeepCredentials(before, id) && KeepsCredentials(last, id);
      FairRun(s, before, id);
      FairStep(RunFrom(s, before), last, id);
      StepKeepsLocals(RunFrom(s, before), last);
    }
  }

  /** Some continuation that brings no new credentials deletes the account for ones it does not have. */
  ghost predicate CanBeWronged(s: State, id: Id) {
    exists more :: CanRun(s, more) && AllKeepCredentials(more, id) && Wronged(RunFrom(s, more), id)
  }

  predicate Wronged(s: State, id: Id) {
    id in s.rows && s.rows[id].deleted && !JudgedFairly(s, id)
  }

  lemma Condemned(s: State, k: nat, id: Id) returns (a: Action)
    requires StaleCall(s, k, id) && Live(s, id) && LocalOnlyInChecks(s)
    ensures Enabled(s, a) && KeepsCredentials(a, id)
    ensures var t := Apply(s, a);
            Live(t, id) && t.rows[id].health.condition == Invalid && !JudgedFairly(t, id)
  {
    var ending := if s.calls[k].local.Some? then KnownBanned else Upstream(AuthFailed);
    a := Record(k, id, s.calls[k].task, ending, true);
    assert s.calls[k].local.Some? ==> s.calls[k].task.CheckTask?;
  }

  lemma ConfirmAndSweep(t: State, id: Id)
    requires Live(t, id) && t.rows[id].health.condition == Invalid && !JudgedFairly(t, id)
    ensures var a := Confirm(None, |InvalidIn(t, None)|);
            && Enabled(t, a) && Enabled(Apply(t, a), Sweep) && Wronged(Apply(Apply(t, a), Sweep), id)
  {
    assert id in InvalidIn(t, None);
    var u := Apply(t, Confirm(None, |InvalidIn(t, None)|));
    assert InvalidIn(u, None) == InvalidIn(t, None);
  }

  lemma StepKeepsLocals(s: State, a: Action)
    requires Enabled(s, a) && LocalOnlyInChecks(s)
    ensures LocalOnlyInChecks(Apply(s, a))
  {
  }

  lemma StaleVisitCanWrong(s: State, k: nat, id: Id)
    requires StaleCall(s, k, id) && Live(s, id) && LocalOnlyInChecks(s)
    ensures CanBeWronged(s, id)
  {
    var a := Condemned(s, k, id);
    var t := Apply(s, a);
    var b := Confirm(None, |InvalidIn(t, None)|);
    ConfirmAndSweep(t, id);
    OneMore(s, [], a);
    OneMore(s, [] + [a], b);
    OneMore(s, [] + [a] + [b], Sweep);
    assert AllKeepCredentials([] + [a] + [b] + [Sweep], id);
  }

  /** The account's own credentials are refused, and then the edit puts the old ones back. */
  lemma PutBack(s: State, k: nat, id: Id) returns (actions: seq<Action>)
    requires StaleWrite(s, k, id) && Live(s, id)
    ensures CanRun(s, actions) && AllKeepCredentials(actions, id)
    ensures var t := RunFrom(s, actions);
            Live(t, id) && t.rows[id].health.condition == Invalid && !JudgedFairly(t, id)
  {
    var n, v := |s.calls|, s.rows[id].version;
    OneMore(s, [], SetStatus(id, Active));
    actions := [] + [SetStatus(id, Active)];
    OneMore(s, actions, Begin(id, CheckTask, true));
    actions := actions + [Begin(id, CheckTask, true)];
    assert RunFrom(s, actions).calls[n] == Call(id, CheckTask, v, None, Stage.Open);
    OneMore(s, actions, Record(n, id, CheckTask, Upstream(AuthFailed), true));
    actions := actions + [Record(n, id, CheckTask, Upstream(AuthFailed), true)];
    assert RunFrom(s, actions).rows[id].judged == Some(v) && RunFrom(s, actions).edits == s.edits;
    OneMore(s, actions, WriteEdit(k, id, false, Active));
    actions := actions + [WriteEdit(k, id, false, Active)];
  }

  lemma StaleEditCanWrong(s: State, k: nat, id: Id)
    requires StaleWrite(s, k, id) && Live(s, id)
    ensures CanBeWronged(s, id)
  {
    var actions := PutBack(s, k, id);
    var t := RunFrom(s, actions);
    var b := Confirm(None, |InvalidIn(t, None)|);
    ConfirmAndSweep(t, id);
    OneMore(s, actions, b);
    OneMore(s, actions + [b], Sweep);
    assert AllKeepCredentials(actions + [b] + [Sweep], id);
  }

  /**
   * A fairly judged account can be deleted for credentials it does not have if and only if some visit that
   * began with others can still condemn it, or some edit under way can put others back.
   */
  lemma WrongedExactly(s: State, id: Id)
    requires Live(s, id) && JudgedFairly(s, id) && LocalOnlyInChecks(s)
    ensures CanBeWronged(s, id) <==> StaleVisit(s, id) || StaleEdit(s, id)
  {
    if StaleVisit(s, id) {
      var k :| 0 <= k < |s.calls| && StaleCall(s, k, id);
      StaleVisitCanWrong(s, k, id);
    } else if StaleEdit(s, id) {
      var k :| 0 <= k < |s.edits| && StaleWrite(s, k, id);
      StaleEditCanWrong(s, k, id);
    } else if more :| CanRun(s, more) && AllKeepCredentials(more, id) && Wronged(RunFrom(s, more), id) {
      FairRun(s, more, id);
    }
  }

  lemma {:induction false} ReachedIsSound(actions: seq<Action>)
    requires CanRun(NO_ACCOUNTS, actions)
    ensures Versions(RunFrom(NO_ACCOUNTS, actions)) && LocalOnlyInChecks(RunFrom(NO_ACCOUNTS, actions))
    decreases |actions|
  {
    if actions == [] {
    } else {
      var before := actions[..|actions| - 1];
      ReachedIsSound(before);
      StepKeepsVersions(RunFrom(NO_ACCOUNTS, before), actions[|actions| - 1]);
      StepKeepsLocals(RunFrom(NO_ACCOUNTS, before), actions[|actions| - 1]);
    }
  }

  /**
   * After new credentials an account is out of the sweep's reach until a verdict about them, if and only
   * if neither a visit that can condemn it nor an edit was under way when they came.
   */
  lemma RepairProtectsExactly(actions: seq<Action>, id: Id, status: Option<Status>)
    requires CanRun(NO_ACCOUNTS, actions) && Live(RunFrom(NO_ACCOUNTS, actions), id)
    ensures var s := RunFrom(NO_ACCOUNTS, actions);
            CanBeWronged(Apply(s, NewCredentials(id, status)), id) <==>
              || (exists k :: 0 <= k < |s.calls| && s.calls[k].id == id && CanCondemn(s.calls[k]))
              || (exists k :: 0 <= k < |s.edits| && s.edits[k].id == id && !s.edits[k].written)
  {
    var s := RunFrom(NO_ACCOUNTS, actions);
    var t := Apply(s, NewCredentials(id, status));
    ReachedIsSound(actions);
    StepKeepsLocals(s, NewCredentials(id, status));
    WrongedExactly(t, id);
    if k :| 0 <= k < |s.calls| && s.calls[k].id == id && CanCondemn(s.calls[k]) {
      assert StaleCall(t, k, id);
    }
    if k :| 0 <= k < |s.edits| && s.edits[k].id == id && !s.edits[k].written {
      assert StaleWrite(t, k, id);
    }
  }
}

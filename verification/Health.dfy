/**
 * Whether an account still works, and removing those that do not (pkg/service/account_health.go and the
 * write-back in pkg/service/message_service.go). One tenant's accounts; what the mail providers answer is
 * a parameter of each operation.
 */
module Health {
  import opened Common

  type Id = string

  datatype Kind =
    | AuthFailed | Banned | AccountUnavailable | ConsentRequired | ProxyFailed | Network
    | RateLimited | FolderUnavailable | ProviderError | Canceled

  /** How an access can end; the first three failures happen before the provider is reached. */
  datatype Ending =
    | Success
    | KnownBanned      // the account is stored as banned
    | SwitchedOff      // the user disabled it
    | Undecryptable    // stored credentials cannot be read
    | Upstream(kind: Kind)

  datatype Condition = Unknown | Fine | Invalid | Error

  datatype Verdict = Verdict(condition: Condition, kind: Option<Kind>)

  const OPEN := Verdict(Unknown, None)

  datatype Status = Active | Disabled | BannedStatus

  /** The health check, reading mail, and exchanging a refresh token. */
  datatype Task = CheckTask | AccessTask | RefreshTask

  /**
   * `version` says which credentials the row has, `issued` how many it ever had, and `judged` which of
   * them the verdict is about.
   */
  datatype Row = Row(
    group: string, status: Status, health: Verdict, version: nat, issued: nat, judged: Option<nat>, deleted: bool)

  datatype Stage =
    | Open      // has its credentials, its ending not recorded
    | Banning   // recorded that the provider banned the account, about to store the status
    | Over

  /** A visit under way: what it read when it began, and the failure that kept it from the provider. */
  datatype Call = Call(id: Id, task: Task, version: nat, local: Option<Ending>, stage: Stage)

  /** An edit under way: it writes the whole row back, with the credentials it read unless it changes them. */
  datatype Edit = Edit(id: Id, version: nat, written: bool)

  /** `confirmed` is a deletion whose count has been compared and whose statement has not run yet. */
  datatype State = State(rows: map<Id, Row>, calls: seq<Call>, edits: seq<Edit>, confirmed: Option<Option<string>>)

  predicate LocalFailure(e: Ending) {
    e.KnownBanned? || e.SwitchedOff? || e.Undecryptable?
  }

  function KindOf(e: Ending): Kind
    requires !e.Success?
  {
    if e.Upstream? then e.kind else ProviderError
  }

  function HealthOfKind(k: Kind): Option<Verdict> {
    match k
    case Banned => Some(Verdict(Invalid, Some(k)))
    case AccountUnavailable => Some(Verdict(Invalid, Some(k)))
    case AuthFailed => Some(Verdict(Invalid, Some(k)))
    case FolderUnavailable => Some(Verdict(Fine, None))
    case Canceled => None
    case _ => Some(Verdict(Error, Some(k)))
  }

  /** A network, proxy, quota or provider failure says nothing about the account itself. */
  function HealthOf(e: Ending): (v: Option<Verdict>)
    ensures v.Some? && v.value.condition == Invalid <==>
            e.KnownBanned? || (e.Upstream? && (e.kind.Banned? || e.kind.AccountUnavailable? || e.kind.AuthFailed?))
    ensures v.Some? && v.value.condition == Fine <==> e.Success? || e == Upstream(FolderUnavailable)
    ensures v.None? <==> e.SwitchedOff? || e == Upstream(Canceled)
    ensures v.Some? ==> v.value.condition != Unknown
    ensures v.Some? && v.value.condition == Fine ==> v.value.kind == None
    ensures v.Some? && v.value.condition != Fine ==>
              v.value.kind == Some(if e.KnownBanned? then Banned else if e.Undecryptable? then ProviderError else e.kind)
  {
    match e
    case Success => Some(Verdict(Fine, None))
    case KnownBanned => Some(Verdict(Invalid, Some(Banned)))
    case SwitchedOff => None
    case Undecryptable => HealthOfKind(KindOf(e))
    case Upstream(_) => HealthOfKind(KindOf(e))
  }

  /** A token refresh that did not log in may only tell that the account is invalid. */
  function VerdictOf(e: Ending, reachedMailbox: bool): Option<Verdict> {
    var v := HealthOf(e);
    if !reachedMailbox && !(v.Some? && v.value.condition == Invalid) then None else v
  }

  /** What a visit leaves on record when it ends so; a failure before the provider only the check records. */
  function VerdictFor(task: Task, e: Ending): Option<Verdict> {
    if LocalFailure(e) then (if task.CheckTask? then HealthOf(e) else None) else VerdictOf(e, !task.RefreshTask?)
  }

  // ---------- the steps ----------

  datatype Action =
    | Add(id: Id, group: string, status: Status)
    | Begin(id: Id, task: Task, readable: bool)
    | Record(call: nat, id: Id, task: Task, ending: Ending, saved: bool)
    | WriteBan(call: nat, id: Id, saved: bool)
    | NewCredentials(id: Id, newStatus: Option<Status>)   // an overwriting import writes the status as well
    | BeginEdit(id: Id)
    | WriteEdit(edit: nat, id: Id, changed: bool, status: Status)   // changed: with new credentials
    | SetStatus(id: Id, status: Status)
    | Move(id: Id, group: string)
    | Confirm(scope: Option<string>, expected: nat)       // the first half of deleting invalid accounts
    | Sweep                                               // the second half, one statement

  predicate Live(s: State, id: Id) {
    id in s.rows && !s.rows[id].deleted
  }

  /** Reading the credentials refuses banned and disabled accounts before anything else. */
  function LocalEnding(status: Status, readable: bool): Option<Ending> {
    match status
    case BannedStatus => Some(KnownBanned)
    case Disabled => Some(SwitchedOff)
    case Active => if readable then None else Some(Undecryptable)
  }

  predicate Enabled(s: State, a: Action) {
    match a
    case Add(id, _, _) => id !in s.rows
    case Begin(id, _, _) => Live(s, id)
    case Record(k, id, task, e, _) =>
      && k < |s.calls| && s.calls[k].stage.Open? && s.calls[k].id == id && s.calls[k].task == task
      && if s.calls[k].local.Some? then e == s.calls[k].local.value else !LocalFailure(e)
    case WriteBan(k, id, _) => k < |s.calls| && s.calls[k].stage.Banning? && s.calls[k].id == id
    case NewCredentials(id, _) => Live(s, id)
    case BeginEdit(id) => Live(s, id)
    case WriteEdit(k, id, _, _) => k < |s.edits| && !s.edits[k].written && s.edits[k].id == id
    case SetStatus(id, _) => Live(s, id)
    case Move(id, _) => Live(s, id)
    case Confirm(_, _) => true
    case Sweep => s.confirmed.Some?
  }

  predicate InGroup(row: Row, group: Option<string>) {
    group.None? || row.group == group.value
  }

  function InvalidIn(s: State, group: Option<string>): set<Id> {
    set id | id in s.rows && Live(s, id) && s.rows[id].health.condition == Invalid && InGroup(s.rows[id], group)
  }

  function SweepRows(s: State, group: Option<string>): map<Id, Row> {
    map id | id in s.rows :: if id in InvalidIn(s, group) then s.rows[id].(deleted := true) else s.rows[id]
  }

  /** Statements go by id and skip deleted rows. */
  function Update(s: State, id: Id, row: Row): State {
    if Live(s, id) then s.(rows := s.rows[id := row]) else s
  }

  function Judge(s: State, id: Id, v: Option<Verdict>, version: nat): State {
    if v.Some? && Live(s, id) then Update(s, id, s.rows[id].(health := v.value, judged := Some(version))) else s
  }

  /** New credentials void the verdict. */
  function Renewed(row: Row, status: Status): Row {
    row.(health := OPEN, judged := None, version := row.issued + 1, issued := row.issued + 1, status := status)
  }

  function Apply(s: State, a: Action): State
    requires Enabled(s, a)
  {
    match a
    case Add(id, group, status) => s.(rows := s.rows[id := Row(group, status, OPEN, 0, 0, None, false)])
    case Begin(id, task, readable) =>
      var local := LocalEnding(s.rows[id].status, readable);
      var stage := if local.Some? && !task.CheckTask? then Over else Open;
      s.(calls := s.calls + [Call(id, task, s.rows[id].version, local, stage)])
    case Record(k, id, task, e, saved) =>
      var call := s.calls[k];
      var t := s.(calls := s.calls[k := call.(stage := if e == Upstream(Banned) then Banning else Over)]);
      Judge(t, id, if saved then VerdictFor(task, e) else None, call.version)
    case WriteBan(k, id, saved) =>
      var t := s.(calls := s.calls[k := s.calls[k].(stage := Over)]);
      if saved && Live(s, id) then Update(t, id, s.rows[id].(status := BannedStatus)) else t
    case NewCredentials(id, status) =>
      Update(s, id, Renewed(s.rows[id], if status.Some? then status.value else s.rows[id].status))
    case BeginEdit(id) => s.(edits := s.edits + [Edit(id, s.rows[id].version, false)])
    case WriteEdit(k, id, changed, status) =>
      var t := s.(edits := s.edits[k := s.edits[k].(written := true)]);
      if !Live(s, id) then t
      else if changed then Update(t, id, Renewed(s.rows[id], status))
      else Update(t, id, s.rows[id].(version := s.edits[k].version, status := status))
    case SetStatus(id, status) => Update(s, id, s.rows[id].(status := status))
    case Move(id, group) => Update(s, id, s.rows[id].(group := group))
    case Confirm(group, expected) =>
      var n := |InvalidIn(s, group)|;
      if n == 0 || n != expected then s else s.(confirmed := Some(group))
    case Sweep => s.(rows := SweepRows(s, s.confirmed.value), confirmed := None)
  }

  ghost predicate CanRun(s: State, actions: seq<Action>)
    decreases |actions|, 0
  {
    actions == [] ||
    (CanRun(s, actions[..|actions| - 1]) && Enabled(RunFrom(s, actions[..|actions| - 1]), actions[|actions| - 1]))
  }

  ghost function RunFrom(s: State, actions: seq<Action>): State
    requires CanRun(s, actions)
    decreases |actions|, 1
  {
    if actions == [] then s else Apply(RunFrom(s, actions[..|actions| - 1]), actions[|actions| - 1])
  }

  const NO_ACCOUNTS := State(map[], [], [], None)

  lemma OneMore(s: State, actions: seq<Action>, a: Action)
    requires CanRun(s, actions) && Enabled(RunFrom(s, actions), a)
    ensures CanRun(s, actions + [a]) && RunFrom(s, actions + [a]) == Apply(RunFrom(s, actions), a)
  {
    assert (actions + [a])[..|actions|] == actions;
  }
}

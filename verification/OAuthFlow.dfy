/**
 * One re-authorisation flow (pkg/service/oauth_service.go, the authorization code grant of section 4.1 of
 * RFC 6749): any number of callbacks and completions run concurrently on the flow's row, each a few
 * database statements with the provider's answers in between. The clock only moves forward.
 */
module OAuthFlow {
  import opened Common

  datatype Status = Started | Exchanged | Consumed | Failed

  /** `gone` once the row has been cleaned up after its expiry. */
  datatype Flow = Flow(status: Status, token: string, expiresAt: int, gone: bool)

  datatype Account = Account(token: string, deleted: bool)

  datatype Callback =
    | Waiting    // has not looked at the flow
    | Admitted   // found it started and in time; talking to the provider
    | Ended

  datatype Completion =
    | Idle
    | Holding(token: string)                  // read the exchanged token; trying it with the provider
    | Tried(token: string, latest: string)    // the provider accepted it, perhaps rotating it
    | Done(ok: bool)

  /** The last three fields remember the past: tokens exchanged into the flow, and what it installed when. */
  datatype State = State(
    flow: Flow, account: Account, now: int, callbacks: seq<Callback>, completions: seq<Completion>,
    exchanged: seq<string>, installed: seq<string>, installedAt: seq<int>)

  datatype Action =
    | Admit(c: nat)                          // the callback's checks
    | Exchange(c: nat, token: string)        // its success: UPDATE ... WHERE started and unexpired
    | Fail(c: nat)                           // its failure: UPDATE ... WHERE started or exchanged
    | Read(k: nat, mine: bool)               // the completion's checks
    | Try(k: nat, latest: Option<string>)    // the provider refuses, or accepts and may rotate
    | Finish(k: nat)                         // one transaction: replace credentials, consume
    | Tick(later: int)
    | CleanUp                                // another flow's start deletes expired rows
    | EditAccount(token: string)
    | DeleteAccount

  function Initial(expiresAt: int, token: string, callbacks: nat, completions: nat): State {
    State(Flow(Started, "", expiresAt, false), Account(token, false), 0,
          seq(callbacks, _ => Waiting), seq(completions, _ => Idle), [], [], [])
  }

  predicate Enabled(s: State, a: Action) {
    match a
    case Admit(c) => c < |s.callbacks| && s.callbacks[c].Waiting?
    case Exchange(c, _) => c < |s.callbacks| && s.callbacks[c].Admitted?
    case Fail(c) => c < |s.callbacks| && s.callbacks[c].Admitted?
    case Read(k, _) => k < |s.completions| && s.completions[k].Idle?
    case Try(k, _) => k < |s.completions| && s.completions[k].Holding?
    case Finish(k) => k < |s.completions| && s.completions[k].Tried?
    case Tick(later) => later >= s.now
    case CleanUp => true
    case EditAccount(_) => !s.account.deleted
    case DeleteAccount => true
  }

  // ---------- the guarded statements ----------

  predicate Unexpired(f: Flow, now: int) {
    !f.gone && now < f.expiresAt
  }

  /** The service's own check before the statements; it allows the very last instant as well. */
  predicate Passes(f: Flow, status: Status, now: int) {
    !f.gone && f.status == status && now <= f.expiresAt
  }

  predicate CanExchange(f: Flow, now: int) {
    Unexpired(f, now) && f.status == Started
  }

  predicate CanConsume(f: Flow, now: int) {
    Unexpired(f, now) && f.status == Exchanged
  }

  function MarkFailed(f: Flow): Flow {
    if !f.gone && (f.status == Started || f.status == Exchanged) then f.(status := Failed) else f
  }

  function Apply(s: State, a: Action): State
    requires Enabled(s, a)
  {
    match a
    case Admit(c) =>
      s.(callbacks := s.callbacks[c := if Passes(s.flow, Started, s.now) then Admitted else Ended])
    case Exchange(c, token) =>
      var t := s.(callbacks := s.callbacks[c := Ended]);
      if CanExchange(s.flow, s.now)
      then t.(flow := s.flow.(status := Exchanged, token := token), exchanged := s.exchanged + [token])
      else t
    case Fail(c) => s.(callbacks := s.callbacks[c := Ended], flow := MarkFailed(s.flow))
    case Read(k, mine) =>
      s.(completions := s.completions[k := if mine && Passes(s.flow, Exchanged, s.now) then Holding(s.flow.token)
                                           else Done(false)])
    case Try(k, latest) =>
      s.(completions := s.completions[k := if latest.Some? then Tried(s.completions[k].token, latest.value)
                                           else Done(false)])
    case Finish(k) =>
      var latest := s.completions[k].latest;
      if !s.account.deleted && CanConsume(s.flow, s.now)
      then s.(account := s.account.(token := latest), flow := s.flow.(status := Consumed, token := ""),
              completions := s.completions[k := Done(true)],
              installed := s.installed + [latest], installedAt := s.installedAt + [s.now])
      else s.(completions := s.completions[k := Done(false)])
    case Tick(later) => s.(now := later)
    case CleanUp => if s.flow.expiresAt <= s.now then s.(flow := s.flow.(gone := true)) else s
    case EditAccount(token) => s.(account := s.account.(token := token))
    case DeleteAccount => s.(account := s.account.(deleted := true))
  }

  ghost predicate CanRun(s: State, actions: seq<Action>)
    decreases |actions|
  {
    actions == [] || (Enabled(s, actions[0]) && CanRun(Apply(s, actions[0]), actions[1..]))
  }

  ghost function RunFrom(s: State, actions: seq<Action>): State
    requires CanRun(s, actions)
    decreases |actions|
  {
    if actions == [] then s else RunFrom(Apply(s, actions[0]), actions[1..])
  }

  // ---------- the invariant ----------

  predicate Succeeded(c: Completion) {
    c.Done? && c.ok
  }

  ghost predicate AtMostOneSuccess(completions: seq<Completion>) {
    forall i, j :: 0 <= i < j < |completions| ==> !(Succeeded(completions[i]) && Succeeded(completions[j]))
  }

  ghost predicate Inv(s: State) {
    && |s.exchanged| <= 1
    && (s.flow.status.Started? ==> s.exchanged == [])
    && (s.flow.status.Exchanged? ==> s.exchanged == [s.flow.token])
    && (s.flow.status.Consumed? ==> |s.exchanged| == 1 && s.flow.token == "")
    && |s.installed| == |s.installedAt| == (if s.flow.status.Consumed? then 1 else 0)
    && (forall i :: 0 <= i < |s.installedAt| ==> s.installedAt[i] < s.flow.expiresAt)
    && (forall k :: 0 <= k < |s.completions| && (s.completions[k].Holding? || s.completions[k].Tried?) ==>
          s.exchanged == [s.completions[k].token])
    && (forall k :: 0 <= k < |s.completions| && Succeeded(s.completions[k]) ==> s.flow.status.Consumed?)
    && AtMostOneSuccess(s.completions)
  }

  lemma FinishKeeps(s: State, k: nat)
    requires Enabled(s, Finish(k)) && Inv(s)
    ensures Inv(Apply(s, Finish(k)))
  {
  }

  lemma CompletionKeeps(s: State, a: Action)
    requires (a.Read? || a.Try?) && Enabled(s, a) && Inv(s)
    ensures Inv(Apply(s, a))
  {
  }

  lemma StepKeeps(s: State, a: Action)
    requires Enabled(s, a) && Inv(s)
    ensures Inv(Apply(s, a)) && Apply(s, a).flow.expiresAt == s.flow.expiresAt
    ensures s.flow.status.Consumed? || s.flow.status.Failed? ==> Apply(s, a).flow.status == s.flow.status
    ensures s.installed <= Apply(s, a).installed
  {
    match a
    case Read(_, _) => CompletionKeeps(s, a);
    case Try(_, _) => CompletionKeeps(s, a);
    case Finish(k) => FinishKeeps(s, k);
    case _ =>
  }

  lemma {:induction false} RunKeeps(s: State, actions: seq<Action>)
    requires Inv(s) && CanRun(s, actions)
    ensures Inv(RunFrom(s, actions)) && RunFrom(s, actions).flow.expiresAt == s.flow.expiresAt
    ensures s.flow.status.Consumed? || s.flow.status.Failed? ==> RunFrom(s, actions).flow.status == s.flow.status
    ensures s.installed <= RunFrom(s, actions).installed
    decreases |actions|
  {
    if actions == [] {
    } else {
      StepKeeps(s, actions[0]);
      RunKeeps(Apply(s, actions[0]), actions[1..]);
    }
  }

  ghost predicate Reached(s: State, expiresAt: int, token: string, callbacks: nat, completions: nat,
      actions: seq<Action>)
  {
    && CanRun(Initial(expiresAt, token, callbacks, completions), actions)
    && s == RunFrom(Initial(expiresAt, token, callbacks, completions), actions)
  }

  /**
   * Whatever the interleaving, a flow replaces credentials at most once, exactly when it is consumed and
   * before it expires; at most one completion reports success; a code is exchanged at most once, and that
   * token is the only one completions ever try.
   */
  lemma FlowReplacesCredentialsAtMostOnce(
    s: State, expiresAt: int, token: string, callbacks: nat, completions: nat, actions: seq<Action>)
    requires Reached(s, expiresAt, token, callbacks, completions, actions)
    ensures |s.installed| <= 1 && (|s.installed| == 1 <==> s.flow.status == Consumed)
    ensures forall i :: 0 <= i < |s.installedAt| ==> s.installedAt[i] < expiresAt
    ensures AtMostOneSuccess(s.completions)
    ensures forall k :: 0 <= k < |s.completions| && Succeeded(s.completions[k]) ==> |s.installed| == 1
    ensures |s.exchanged| <= 1
    ensures forall k :: 0 <= k < |s.completions| && (s.completions[k].Holding? || s.completions[k].Tried?) ==>
              s.exchanged == [s.completions[k].token]
  {
    RunKeeps(Initial(expiresAt, token, callbacks, completions), actions);
  }

  /** Consumed and failed are final: no later callback or completion installs anything any more. */
  lemma FinishedFlowsStayFinished(
    s: State, expiresAt: int, token: string, callbacks: nat, completions: nat, actions: seq<Action>, more: seq<Action>)
    requires Reached(s, expiresAt, token, callbacks, completions, actions) && CanRun(s, more)
    requires s.flow.status == Consumed || s.flow.status == Failed
    ensures RunFrom(s, more).flow.status == s.flow.status && RunFrom(s, more).installed == s.installed
  {
    RunKeeps(Initial(expiresAt, token, callbacks, completions), actions);
    RunKeeps(s, more);
  }

  /** Without edits by the user the account's token changes only with the flow's consumption. */
  ghost predicate NoEdits(actions: seq<Action>) {
    forall i :: 0 <= i < |actions| ==> !actions[i].EditAccount?
  }

  lemma {:induction false} TokenFollowsInstallations(s: State, actions: seq<Action>, before: string)
    requires CanRun(s, actions) && NoEdits(actions)
    requires s.account.token == if s.installed == [] then before else s.installed[|s.installed| - 1]
    ensures var t := RunFrom(s, actions);
            t.account.token == if t.installed == [] then before else t.installed[|t.installed| - 1]
    decreases |actions|
  {
    if actions == [] {
    } else {
      var t := Apply(s, actions[0]);
      assert t.account.token == if t.installed == [] then before else t.installed[|t.installed| - 1];
      TokenFollowsInstallations(t, actions[1..], before);
    }
  }

  /** The credentials are the old ones or the one installed token: replaced if and only if consumed. */
  lemma ReplacedOnlyByConsumption(
    s: State, expiresAt: int, token: string, callbacks: nat, completions: nat, actions: seq<Action>)
    requires Reached(s, expiresAt, token, callbacks, completions, actions) && NoEdits(actions)
    ensures s.account.token == if s.flow.status == Consumed && |s.installed| == 1 then s.installed[0] else token
  {
    TokenFollowsInstallations(Initial(expiresAt, token, callbacks, completions), actions, token);
    FlowReplacesCredentialsAtMostOnce(s, expiresAt, token, callbacks, completions, actions);
  }

  // ---------- completing, and spoiling ----------

  /** A completion that runs undisturbed succeeds exactly when the flow is exchanged, in time, and its own. */
  lemma CompletionSucceeds(s: State, k: nat, mine: bool, latest: string)
    requires k < |s.completions| && s.completions[k] == Idle
    ensures var s1 := Apply(s, Read(k, mine));
            if mine && !s.flow.gone && s.flow.status == Exchanged && s.now <= s.flow.expiresAt then
              var s3 := Apply(Apply(s1, Try(k, Some(latest))), Finish(k));
              && (s3.completions[k] == Done(true) <==> s.now < s.flow.expiresAt && !s.account.deleted)
              && (s3.completions[k] == Done(true) ==>
                    s3.account == s.account.(token := latest) && s3.flow == s.flow.(status := Consumed, token := ""))
              && (s3.completions[k] != Done(true) ==> s3.account == s.account && s3.flow == s.flow)
            else
              s1 == s.(completions := s.completions[k := Done(false)])
  {
  }

  /**
   * Two callbacks admitted together: when the first has exchanged its code and the second then fails,
   * the flow is failed although it holds a good token, and nothing can complete it any more.
   */
  lemma LateFailureSpoilsTheFlow(expiresAt: int, token: string, good: string)
    returns (s: State, actions: seq<Action>)
    requires expiresAt > 0
    ensures Reached(s, expiresAt, token, 2, 1, actions)
    ensures s.exchanged == [good] && s.flow.status == Failed
    ensures forall more :: CanRun(s, more) ==> RunFrom(s, more).installed == []
  {
    var s0 := Initial(expiresAt, token, 2, 1);
    var s1 := Apply(s0, Admit(0));
    var s2 := Apply(s1, Admit(1));
    var s3 := Apply(s2, Exchange(0, good));
    s := Apply(s3, Fail(1));
    Chain(s3, s, Fail(1), []);
    Chain(s2, s, Exchange(0, good), [Fail(1)]);
    Chain(s1, s, Admit(1), [Exchange(0, good)] + [Fail(1)]);
    actions := [Admit(1)] + ([Exchange(0, good)] + [Fail(1)]);
    Chain(s0, s, Admit(0), actions);
    actions := [Admit(0)] + actions;
    forall more | CanRun(s, more) ensures RunFrom(s, more).installed == [] {
      FinishedFlowsStayFinished(s, expiresAt, token, 2, 1, actions, more);
    }
  }

  predicate SomeAdmitted(s: State) {
    exists c :: 0 <= c < |s.callbacks| && s.callbacks[c].Admitted?
  }

  lemma {:induction false} NobodyLeftToFail(s: State, actions: seq<Action>)
    requires CanRun(s, actions) && !SomeAdmitted(s) && (s.flow.status.Exchanged? || s.flow.status.Consumed?)
    ensures RunFrom(s, actions).flow.status != Failed
    decreases |actions|
  {
    if actions != [] {
      var t := Apply(s, actions[0]);
      assert !SomeAdmitted(t) && (t.flow.status.Exchanged? || t.flow.status.Consumed?);
      NobodyLeftToFail(t, actions[1..]);
    }
  }

  ghost predicate CanFail(s: State) {
    exists actions :: CanRun(s, actions) && RunFrom(s, actions).flow.status == Failed
  }

  /** An exchanged flow whose row is still there can be spoiled if and only if another callback was admitted. */
  lemma SpoiledOnlyByAdmittedCallbacks(s: State)
    requires s.flow.status == Exchanged && !s.flow.gone
    ensures CanFail(s) <==> SomeAdmitted(s)
  {
    if c: nat :| c < |s.callbacks| && s.callbacks[c].Admitted? {
      Chain(s, Apply(s, Fail(c)), Fail(c), []);
      assert CanRun(s, [Fail(c)] + []) && RunFrom(s, [Fail(c)] + []).flow.status == Failed;
    } else if actions :| CanRun(s, actions) && RunFrom(s, actions).flow.status == Failed {
      NobodyLeftToFail(s, actions);
    }
  }

  lemma Chain(s: State, end: State, a: Action, rest: seq<Action>)
    requires Enabled(s, a) && CanRun(Apply(s, a), rest) && RunFrom(Apply(s, a), rest) == end
    ensures CanRun(s, [a] + rest) && RunFrom(s, [a] + rest) == end
  {
    assert ([a] + rest)[1..] == rest;
  }

  // ---------- the rows and their statements ----------

  class FlowStore {
    var flow: Flow
    var account: Account

    constructor (expiresAt: int, token: string)
      ensures flow == Flow(Started, "", expiresAt, false) && account == Account(token, false)
    {
      flow, account := Flow(Started, "", expiresAt, false), Account(token, false);
    }

    method MarkExchanged(token: string, now: int) returns (found: bool)
      modifies this`flow
      ensures found == CanExchange(old(flow), now)
      ensures flow == if found then old(flow).(status := Exchanged, token := token) else old(flow)
    {
      found := !flow.gone && flow.status == Started && flow.expiresAt > now;
      if found {
        flow := flow.(status := Exchanged, token := token);
      }
    }

    method RecordFailure()
      modifies this`flow
      ensures flow == MarkFailed(old(flow))
    {
      if !flow.gone && flow.status in {Started, Exchanged} {
        flow := flow.(status := Failed);
      }
    }

    method ReplaceToken(latest: string) returns (found: bool)
      modifies this`account
      ensures found == !old(account).deleted
      ensures account == if found then old(account).(token := latest) else old(account)
    {
      found := !account.deleted;
      if found {
        account := account.(token := latest);
      }
    }

    method Consume(now: int) returns (found: bool)
      modifies this`flow
      ensures found == CanConsume(old(flow), now)
      ensures flow == if found then old(flow).(status := Consumed, token := "") else old(flow)
    {
      found := !flow.gone && flow.status == Exchanged && flow.expiresAt > now;
      if found {
        flow := flow.(status := Consumed, token := "");
      }
    }

    /** The transaction: the credentials are written first and taken back if the flow cannot be consumed. */
    method FinishCompletion(s: State, k: nat) returns (ok: bool)
      requires k < |s.completions| && s.completions[k].Tried? && flow == s.flow && account == s.account
      modifies this
      ensures flow == Apply(s, Finish(k)).flow && account == Apply(s, Finish(k)).account
      ensures Apply(s, Finish(k)).completions[k] == Done(ok)
    {
      var before := account;
      ok := ReplaceToken(s.completions[k].latest);
      if ok {
        ok := Consume(s.now);
        if !ok {
          account := before;
        }
      }
    }
  }
}

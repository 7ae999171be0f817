/** What callbacks, users and time do to one re-authorisation flow, step by step, in plain terms. */
module OAuthSteps {
  import opened OAuthFlow

  lemma NewFlowIsFresh(expiresAt: int, token: string, callbacks: nat, completions: nat)
    ensures var s := Initial(expiresAt, token, callbacks, completions);
            && s.flow == Flow(Started, "", expiresAt, false) && s.account == Account(token, false)
            && s.exchanged == [] && s.installed == []
            && |s.callbacks| == callbacks && |s.completions| == completions
            && (forall c :: 0 <= c < callbacks ==> s.callbacks[c].Waiting?)
            && (forall k :: 0 <= k < completions ==> s.completions[k].Idle?)
  {
  }

  /**
   * A callback that runs undisturbed gets its code exchanged exactly when the flow is started, its row still
   * there, and its time not up; it may talk to the provider in the very last instant, but comes too late.
   */
  lemma CallbackSucceeds(s: State, c: nat, token: string)
    requires c < |s.callbacks| && s.callbacks[c].Waiting?
    ensures var s1 := Apply(s, Admit(c));
            && s1 == s.(callbacks := s1.callbacks)
            && if !s.flow.gone && s.flow.status == Started && s.now <= s.flow.expiresAt then
                 && s1.callbacks == s.callbacks[c := Admitted]
                 && var s2 := Apply(s1, Exchange(c, token));
                    && s2.callbacks == s.callbacks[c := Ended] && s2.account == s.account
                    && s2.flow == (if s.now < s.flow.expiresAt then s.flow.(status := Exchanged, token := token) else s.flow)
               else s1.callbacks == s.callbacks[c := Ended]
  {
  }

  /** A callback that fails makes a flow that was not used up yet fail, and ends. */
  lemma CallbackFails(s: State, c: nat)
    requires Enabled(s, Fail(c))
    ensures var t := Apply(s, Fail(c));
            && t == s.(flow := t.flow, callbacks := s.callbacks[c := Ended])
            && t.flow == (if !s.flow.gone && (s.flow.status == Started || s.flow.status == Exchanged)
                          then s.flow.(status := Failed) else s.flow)
  {
  }

  /** Time passes, users edit and delete, and a row goes once its time is up: at any moment. */
  lemma WorldIsFree(s: State, later: int, token: string)
    ensures Enabled(s, CleanUp) && Enabled(s, DeleteAccount)
    ensures later >= s.now ==> Enabled(s, Tick(later)) && Apply(s, Tick(later)) == s.(now := later)
    ensures !s.account.deleted ==>
              Enabled(s, EditAccount(token)) && Apply(s, EditAccount(token)) == s.(account := s.account.(token := token))
    ensures Apply(s, DeleteAccount) == s.(account := s.account.(deleted := true))
    ensures Apply(s, CleanUp) == if s.now >= s.flow.expiresAt then s.(flow := s.flow.(gone := true)) else s
  {
  }

  /** The outcomes that callback c reports in a run: its exchange, or its failure. */
  function Outcomes(actions: seq<Action>, c: nat): nat {
    if actions == [] then 0
    else (if actions[0] == Fail(c) || (actions[0].Exchange? && actions[0].c == c) then 1 else 0) + Outcomes(actions[1..], c)
  }

  /** Once a callback has reported, it never does again. */
  lemma {:induction false} CallbacksReportOnce(s: State, actions: seq<Action>, c: nat)
    requires CanRun(s, actions) && c < |s.callbacks|
    ensures Outcomes(actions, c) <= (if s.callbacks[c].Ended? then 0 else 1)
    decreases |actions|
  {
    if actions != [] {
      CallbacksReportOnce(Apply(s, actions[0]), actions[1..], c);
    }
  }

  function Reads(actions: seq<Action>, k: nat): nat {
    if actions == [] then 0
    else (if actions[0].Read? && actions[0].k == k then 1 else 0) + Reads(actions[1..], k)
  }

  /** A completion looks at the flow once at most, and not again after it has begun. */
  lemma {:induction false} CompletionsReadOnce(s: State, actions: seq<Action>, k: nat)
    requires CanRun(s, actions) && k < |s.completions|
    ensures Reads(actions, k) <= (if s.completions[k].Idle? then 1 else 0)
    decreases |actions|
  {
    if actions != [] {
      CompletionsReadOnce(Apply(s, actions[0]), actions[1..], k);
    }
  }

  /** A consumed flow holds no token any more. */
  lemma ConsumedHoldsNoToken(
      s: State, expiresAt: int, token: string, callbacks: nat, completions: nat, actions: seq<Action>)
    requires Reached(s, expiresAt, token, callbacks, completions, actions) && s.flow.status == Consumed
    ensures s.flow.token == ""
  {
    RunKeeps(Initial(expiresAt, token, callbacks, completions), actions);
  }
}

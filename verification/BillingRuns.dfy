/**
 * What every step of the billing machine keeps, and what holds over whole runs. A step is one event's
 * transaction, one write to the table of event keys, one polled order, the closing write of a cancel
 * request, one admin assignment or one new checkout, in any order and any number; a statement that the
 * store refuses or a transaction that it rolls back is no step.
 */
module BillingRuns {
  import opened Common
  import opened BillingModel

  datatype Action =
    | Apply(ev: Envelope, now: Time, freshId: Id)
    | Record(key: EventKey, status: EventStatus)
    | Sync(env: string, tenant: Id, externalId: Id, seen: Checkout, lookup: Lookup, now: Time, freshId: Id)
    | Cancel(tenant: Id, cancel: bool, read: Subscription, now: Time)
    | Assign(tenant: Id, planId: Id)
    | Open(externalId: Id, checkout: Checkout)

  ghost function Step(db: Tables, a: Action): Tables {
    match a
    case Apply(ev, now, freshId) => Effect(db, ApplyWebhook(db, ev, now, freshId))
    case Record(key, status) => Mark(db, key, status)
    case Sync(env, t, ext, seen, lookup, now, freshId) => Effect(db, SyncCheckout(db, env, t, ext, seen, lookup, now, freshId))
    case Cancel(t, cancel, read, now) => Effect(db, CancelCommit(db, t, cancel, read, now))
    case Assign(t, planId) => Effect(db, AssignPlan(db, t, planId))
    case Open(ext, checkout) => Effect(db, OpenCheckout(db, ext, checkout))
  }

  ghost function Run(db: Tables, actions: seq<Action>): Tables
    decreases |actions|
  {
    if actions == [] then db else Run(Step(db, actions[0]), actions[1..])
  }

  /** A quota that a subscription granted belongs to the tenant's own, uncanceled row. */
  ghost predicate QuotaOwned(subs: map<Id, Subscription>, quotas: map<Id, Quota>) {
    forall t :: t in quotas && quotas[t].source.FromSubscription? ==>
      t in subs && quotas[t].subscriptionId == Some(subs[t].id) && !subs[t].status.Canceled?
  }

  ghost predicate Inv(db: Tables) {
    && "" !in db.subs
    && OrderUnique(db.subs)
    && QuotaOwned(db.subs, db.quotas)
  }

  ghost predicate SameBut<V>(before: map<Id, V>, after: map<Id, V>, t: Id) {
    forall u :: u != t ==> (u in before <==> u in after) && (u in before ==> before[u] == after[u])
  }

  ghost predicate CheckoutsKept(before: map<Id, Checkout>, after: map<Id, Checkout>) {
    && after.Keys == before.Keys
    && forall e :: e in before ==> after[e].tenantId == before[e].tenantId && after[e].priceId == before[e].priceId
  }

  ghost predicate IdKept(before: map<Id, Subscription>, after: map<Id, Subscription>, t: Id) {
    t in before ==> t in after && after[t].id == before[t].id
  }

  /** Everything but tenant t's subscription and quota, and the statuses of checkouts. */
  ghost predicate OnlyTouches(before: Tables, after: Tables, t: Id) {
    && after == before.(subs := after.subs, quotas := after.quotas, checkouts := after.checkouts)
    && SameBut(before.subs, after.subs, t)
    && SameBut(before.quotas, after.quotas, t)
    && after.quotas.Keys == before.quotas.Keys
    && IdKept(before.subs, after.subs, t)
    && CheckoutsKept(before.checkouts, after.checkouts)
  }

  // ---------- resolving an owner ----------

  /** An order someone holds only ever resolves to its holder. */
  lemma ResolveRespectsHolder(db: Tables, d: Data, u: Id)
    requires OrderUnique(db.subs) && u != ""
    requires ResolveOwner(db, d).Ok? && u in db.subs && db.subs[u].orderId == d.orderId
    ensures ResolveOwner(db, d).value.tenant == u
  {
    var holder := Holder(db.subs, d.orderId);
    var claims := TenantClaims(db, d, holder);
    assert holder == Some(u);
    assert claims[|claims| - 1] == u;
    assert u in claims;
  }

  // ---------- one transaction ----------

  /** An accepted status event writes exactly these three rows. */
  lemma ApplyStatusShape(db: Tables, kind: EventType, mode: string, status: Status, owner: Owner, d: Data, at: Time,
      freshId: Id)
    requires ApplyStatus(db, kind, mode, status, owner, d, at, freshId).Ok?
    requires !Ignored(Current(db, owner.tenant), kind, d.orderId, at)
    ensures owner.price != "" && owner.price in db.prices
    ensures var t := owner.tenant;
            var after := ApplyStatus(db, kind, mode, status, owner, d, at, freshId).value;
            var id := if t in db.subs then db.subs[t].id else freshId;
            var row := RowFor(mode, status, owner.price, db.prices[owner.price], d, at, id);
            var sameOrder := t in db.subs && db.subs[t].orderId == d.orderId;
            && after == db.(subs := after.subs, quotas := after.quotas, checkouts := after.checkouts)
            && after.subs == db.subs[t := if sameOrder then KeepPeriods(row, db.subs[t]) else row]
            && (if Starts(kind) || !sameOrder
                then t in db.quotas && after.quotas == db.quotas[t := Quota(db.prices[owner.price].planId, FromSubscription, Some(id))]
                else after.quotas == db.quotas)
            && after.checkouts == (if kind.OnActivated? && d.externalId != "" then Completed(db.checkouts, d.externalId) else db.checkouts)
  {
  }

  lemma OrderUniqueAfter(before: map<Id, Subscription>, t: Id, row: Subscription)
    requires OrderUnique(before)
    requires forall u :: u in before && before[u].orderId == row.orderId ==> u == t
    ensures OrderUnique(before[t := row])
  {
  }

  lemma CompletedKeeps(m: map<Id, Checkout>, e: Id)
    ensures CheckoutsKept(m, Completed(m, e))
  {
  }

  /** One row, one quota and some checkout statuses: what such a write keeps. */
  lemma BookedKeeps(db: Tables, after: Tables, t: Id, row: Subscription)
    requires Inv(db) && t != "" && !row.status.Canceled?
    requires forall u :: u in db.subs && db.subs[u].orderId == row.orderId ==> u == t
    requires after == db.(subs := db.subs[t := row], quotas := after.quotas, checkouts := after.checkouts)
    requires t in db.subs ==> row.id == db.subs[t].id
    requires after.quotas == db.quotas
             || (t in db.quotas && after.quotas == db.quotas[t := Quota(row.planId, FromSubscription, Some(row.id))])
    requires CheckoutsKept(db.checkouts, after.checkouts)
    ensures Inv(after) && OnlyTouches(db, after, t)
  {
    OrderUniqueAfter(db.subs, t, row);
  }

  lemma ApplyStatusKeeps(db: Tables, kind: EventType, mode: string, status: Status, d: Data, at: Time, freshId: Id)
    requires Inv(db) && ResolveOwner(db, d).Ok? && !status.Canceled?
    ensures var r := ApplyStatus(db, kind, mode, status, ResolveOwner(db, d).value, d, at, freshId);
            r.Ok? ==> Inv(r.value) && OnlyTouches(db, r.value, ResolveOwner(db, d).value.tenant)
  {
    var owner := ResolveOwner(db, d).value;
    var t := owner.tenant;
    var r := ApplyStatus(db, kind, mode, status, owner, d, at, freshId);
    if r.Ok? && !Ignored(Current(db, t), kind, d.orderId, at) {
      ApplyStatusShape(db, kind, mode, status, owner, d, at, freshId);
      forall u | u in db.subs && db.subs[u].orderId == d.orderId ensures u == t {
        ResolveRespectsHolder(db, d, u);
      }
      CompletedKeeps(db.checkouts, d.externalId);
      BookedKeeps(db, r.value, t, r.value.subs[t]);
    }
  }

  lemma ApplyCanceledShape(db: Tables, t: Id, d: Data, at: Time)
    requires ApplyCanceled(db, t, d, at).Ok?
    ensures var after := ApplyCanceled(db, t, d, at).value;
            && (after != db ==>
                && t in db.subs && db.subs[t].orderId == d.orderId && !db.subs[t].status.Canceled?
                && after == db.(subs := after.subs, quotas := after.quotas)
                && after.subs == db.subs[t := db.subs[t].(status := Canceled, cancelAtPeriodEnd := false, lastEventAt := Some(at))]
                && (if t in db.quotas && db.quotas[t].source.FromSubscription? && db.quotas[t].subscriptionId == Some(db.subs[t].id)
                    then db.defaultPlan.Some? && after.quotas == db.quotas[t := Quota(db.defaultPlan.value, FromAdmin, None)]
                    else after.quotas == db.quotas))
  {
  }

  lemma ApplyCanceledKeeps(db: Tables, t: Id, d: Data, at: Time)
    requires Inv(db)
    ensures var r := ApplyCanceled(db, t, d, at);
            r.Ok? ==> Inv(r.value) && OnlyTouches(db, r.value, t)
  {
    var r := ApplyCanceled(db, t, d, at);
    if r.Ok? {
      ApplyCanceledShape(db, t, d, at);
      if r.value != db { OrderUniqueAfter(db.subs, t, r.value.subs[t]); }
    }
  }

  lemma ApplyWebhookKeeps(db: Tables, ev: Envelope, now: Time, freshId: Id)
    requires Inv(db)
    ensures var r := ApplyWebhook(db, ev, now, freshId);
            r.Ok? && r.value != db ==>
              && Inv(r.value)
              && ev.data.Some? && ResolveOwner(db, ev.data.value).Ok?
              && OnlyTouches(db, r.value, ResolveOwner(db, ev.data.value).value.tenant)
  {
    if ApplyWebhook(db, ev, now, freshId).Ok? && ev.data.Some? && ResolveOwner(db, ev.data.value).Ok? {
      var d := ev.data.value;
      if StatusOf(ev.kind).Some? {
        ApplyStatusKeeps(db, ev.kind, ev.mode, StatusOf(ev.kind).value, d, EventTime(ev, now), freshId);
      } else {
        ApplyCanceledKeeps(db, ResolveOwner(db, d).value.tenant, d, EventTime(ev, now));
      }
    }
  }

  lemma SyncOrderKeeps(db: Tables, env: string, tenant: Id, e: Id, order: Order, now: Time, freshId: Id)
    requires Inv(db) && Live(order.status)
    ensures var r := SyncOrder(db, env, tenant, e, order, now, freshId);
            r.Ok? ==>
              && Inv(r.value) && ResolveOwner(db, SyncData(tenant, e, order)).Ok?
              && OnlyTouches(db, r.value, ResolveOwner(db, SyncData(tenant, e, order)).value.tenant)
  {
    var d := SyncData(tenant, e, order);
    if SyncOrder(db, env, tenant, e, order, now, freshId).Ok? {
      var owner := ResolveOwner(db, d).value;
      ApplyStatusKeeps(db, OnActivated, env, order.status, d, OrderTime(order, now), freshId);
      CompletedKeeps(ApplyStatus(db, OnActivated, env, order.status, owner, d, OrderTime(order, now), freshId).value.checkouts, e);
    }
  }

  // ---------- every step ----------

  lemma EventsDoNotMatter(db: Tables, events: map<EventKey, EventStatus>, d: Data)
    ensures ResolveOwner(db.(events := events), d) == ResolveOwner(db, d)
    ensures Inv(db.(events := events)) <==> Inv(db)
  {
  }

  /** The tenant whose rows a step may change. */
  ghost function Target(db: Tables, a: Action): Option<Id> {
    match a
    case Apply(ev, _, _) =>
      if ev.data.Some? && ResolveOwner(db, ev.data.value).Ok? then Some(ResolveOwner(db, ev.data.value).value.tenant) else None
    case Sync(_, t, e, _, lookup, _, _) =>
      if lookup.Found? && ResolveOwner(db, SyncData(t, e, lookup.order)).Ok?
      then Some(ResolveOwner(db, SyncData(t, e, lookup.order)).value.tenant) else None
    case Cancel(t, _, _, _) => Some(t)
    case Assign(t, _) => Some(t)
    case _ => None
  }

  ghost predicate OnlyRowsOf(before: Tables, after: Tables, t: Id) {
    && SameBut(before.subs, after.subs, t)
    && SameBut(before.quotas, after.quotas, t)
    && IdKept(before.subs, after.subs, t)
  }

  ghost predicate RowsKept(before: Tables, after: Tables) {
    after.subs == before.subs && after.quotas == before.quotas
  }

  lemma ApplyStep(db: Tables, a: Action)
    requires Inv(db) && a.Apply?
    ensures Inv(Step(db, a))
    ensures !RowsKept(db, Step(db, a)) ==> Target(db, a).Some?
    ensures Target(db, a).Some? ==>
              OnlyRowsOf(db, Step(db, a), Target(db, a).value)
  {
    ApplyWebhookKeeps(db, a.ev, a.now, a.freshId);
  }

  lemma SyncStep(db: Tables, a: Action)
    requires Inv(db) && a.Sync?
    ensures Inv(Step(db, a))
    ensures !RowsKept(db, Step(db, a)) ==> Target(db, a).Some?
    ensures Target(db, a).Some? ==>
              OnlyRowsOf(db, Step(db, a), Target(db, a).value)
  {
    if a.lookup.Found? && Live(a.lookup.order.status) {
      SyncOrderKeeps(db, a.env, a.tenant, a.externalId, a.lookup.order, a.now, a.freshId);
    }
  }

  lemma OtherStep(db: Tables, a: Action)
    requires Inv(db) && !a.Apply? && !a.Sync?
    ensures Inv(Step(db, a))
    ensures !RowsKept(db, Step(db, a)) ==> Target(db, a).Some?
    ensures Target(db, a).Some? ==>
              OnlyRowsOf(db, Step(db, a), Target(db, a).value)
  {
    if a.Cancel? && a.tenant in db.subs {
      OrderUniqueAfter(db.subs, a.tenant, Step(db, a).subs[a.tenant]);
    }
  }

  /** Every step keeps the invariant, touches one tenant's rows at most, and never changes a row's id. */
  lemma StepKeeps(db: Tables, a: Action)
    requires Inv(db)
    ensures Inv(Step(db, a))
    ensures !RowsKept(db, Step(db, a)) ==> Target(db, a).Some?
    ensures Target(db, a).Some? ==>
              OnlyRowsOf(db, Step(db, a), Target(db, a).value)
  {
    if a.Apply? { ApplyStep(db, a); } else if a.Sync? { SyncStep(db, a); } else { OtherStep(db, a); }
  }

  lemma StepKeepsIds(db: Tables, a: Action, t: Id)
    requires Inv(db)
    ensures IdKept(db.subs, Step(db, a).subs, t)
  {
    StepKeeps(db, a);
  }

  // ---------- whole runs ----------

  /** In every reachable state: one holder per order, and subscription plans only for live rows. */
  lemma {:induction false} RunKeepsInv(db: Tables, actions: seq<Action>)
    requires Inv(db)
    ensures Inv(Run(db, actions))
    decreases |actions|
  {
    if actions != [] {
      StepKeeps(db, actions[0]);
      RunKeepsInv(Step(db, actions[0]), actions[1..]);
    }
  }

  /** Starting from tables without subscriptions, whatever happens. */
  lemma ReachableTablesAreSafe(db: Tables, actions: seq<Action>)
    requires db.subs == map[] && forall t :: t in db.quotas ==> db.quotas[t].source.FromAdmin?
    ensures var after := Run(db, actions);
            && (forall t, u :: t in after.subs && u in after.subs && after.subs[t].orderId == after.subs[u].orderId ==> t == u)
            && (forall t :: t in after.quotas && after.quotas[t].source.FromSubscription? ==>
                  t in after.subs && after.quotas[t].subscriptionId == Some(after.subs[t].id) && !after.subs[t].status.Canceled?)
  {
    RunKeepsInv(db, actions);
  }

  /** A subscription row, once there, stays and keeps its id: what a quota points at never moves. */
  lemma {:induction false} RunKeepsIds(db: Tables, actions: seq<Action>, t: Id)
    requires Inv(db) && t in db.subs
    ensures t in Run(db, actions).subs && Run(db, actions).subs[t].id == db.subs[t].id
    decreases |actions|
  {
    if actions != [] {
      StepKeeps(db, actions[0]);
      StepKeepsIds(db, actions[0], t);
      RunKeepsIds(Step(db, actions[0]), actions[1..], t);
    }
  }

  // ---------- the administrator's choice ----------

  /** A status event or polled order of t's that the order guards let through and whose transaction commits. */
  ghost predicate AcceptedStatus(db: Tables, a: Action, t: Id) {
    match a
    case Apply(ev, now, freshId) =>
      && StatusOf(ev.kind).Some?
      && Target(db, a) == Some(t)
      && !Ignored(Current(db, t), ev.kind, ev.data.value.orderId, EventTime(ev, now))
      && ApplyWebhook(db, ev, now, freshId).Ok?
    case Sync(env, tenant, e, _, lookup, now, freshId) =>
      && lookup.Found? && Live(lookup.order.status)
      && Target(db, a) == Some(t)
      && !Ignored(Current(db, t), OnActivated, lookup.order.id, OrderTime(lookup.order, now))
      && SyncOrder(db, env, tenant, e, lookup.order, now, freshId).Ok?
    case _ => false
  }

  /** One that starts a subscription, or is the tenant's first; polling books as an activation. */
  ghost predicate AcceptedStart(db: Tables, a: Action, t: Id) {
    AcceptedStatus(db, a, t) && (a.Apply? ==> Starts(a.ev.kind) || t !in db.subs)
  }

  lemma ApplyTakesOver(db: Tables, ev: Envelope, now: Time, freshId: Id, t: Id)
    requires t in db.quotas && db.quotas[t].source.FromAdmin?
    requires Target(db, Apply(ev, now, freshId)) == Some(t)
    ensures var after := Step(db, Apply(ev, now, freshId));
            && t in after.quotas
            && if AcceptedStart(db, Apply(ev, now, freshId), t) then after.quotas[t].source.FromSubscription?
               else after.quotas[t] == db.quotas[t]
  {
    var d := ev.data.value;
    if ApplyWebhook(db, ev, now, freshId).Ok? {
      if StatusOf(ev.kind).Some? {
        if !Ignored(Current(db, t), ev.kind, d.orderId, EventTime(ev, now)) {
          ApplyStatusShape(db, ev.kind, ev.mode, StatusOf(ev.kind).value, ResolveOwner(db, d).value, d, EventTime(ev, now), freshId);
        }
      } else if ev.kind.OnCanceled? {
        ApplyCanceledShape(db, t, d, EventTime(ev, now));
      }
    }
  }

  lemma SyncTakesOver(db: Tables, a: Action, t: Id)
    requires a.Sync? && t in db.quotas && db.quotas[t].source.FromAdmin?
    requires Target(db, a) == Some(t)
    ensures var after := Step(db, a);
            && t in after.quotas
            && if AcceptedStart(db, a, t) then after.quotas[t].source.FromSubscription?
               else after.quotas[t] == db.quotas[t]
  {
    var order := a.lookup.order;
    var d := SyncData(a.tenant, a.externalId, order);
    if Live(order.status) && SyncOrder(db, a.env, a.tenant, a.externalId, order, a.now, a.freshId).Ok?
       && !Ignored(Current(db, t), OnActivated, order.id, OrderTime(order, a.now)) {
      ApplyStatusShape(db, OnActivated, a.env, order.status, ResolveOwner(db, d).value, d, OrderTime(order, a.now), a.freshId);
    }
  }

  /**
   * A plan the administrator gave becomes the subscription's exactly by an accepted start of the tenant's
   * own; nothing else but a new assignment touches it.
   */
  lemma OnlyStartsTakeOver(db: Tables, a: Action, t: Id)
    requires Inv(db) && t in db.quotas && db.quotas[t].source.FromAdmin?
    ensures t in Step(db, a).quotas
    ensures Step(db, a).quotas[t].source.FromSubscription? <==> AcceptedStart(db, a, t)
    ensures !AcceptedStart(db, a, t) && !(a.Assign? && a.tenant == t) ==> Step(db, a).quotas[t] == db.quotas[t]
  {
    StepKeeps(db, a);
    if Target(db, a) == Some(t) {
      if a.Apply? { ApplyTakesOver(db, a.ev, a.now, a.freshId, t); }
      if a.Sync? { SyncTakesOver(db, a, t); }
    }
  }

  ghost predicate LeavesPlanAlone(db: Tables, actions: seq<Action>, t: Id)
    decreases |actions|
  {
    actions == [] ||
    (!AcceptedStart(db, actions[0], t) && !(actions[0].Assign? && actions[0].tenant == t)
     && LeavesPlanAlone(Step(db, actions[0]), actions[1..], t))
  }

  /** Renewals, recoveries, cancellations and repeated events that are refused never take back the plan. */
  lemma {:induction false} AdminPlanSurvives(db: Tables, actions: seq<Action>, t: Id)
    requires Inv(db) && t in db.quotas && db.quotas[t].source.FromAdmin?
    requires LeavesPlanAlone(db, actions, t)
    ensures t in Run(db, actions).quotas && Run(db, actions).quotas[t] == db.quotas[t]
    decreases |actions|
  {
    if actions != [] {
      StepKeeps(db, actions[0]);
      OnlyStartsTakeOver(db, actions[0], t);
      AdminPlanSurvives(Step(db, actions[0]), actions[1..], t);
    }
  }

  // ---------- termination ----------

  lemma ApplyRevives(db: Tables, a: Action, t: Id)
    requires a.Apply? && t in db.subs && db.subs[t].status.Canceled? && Target(db, a) == Some(t)
    ensures var after := Step(db, a).subs;
            t in after && (!after[t].status.Canceled? <==> AcceptedStatus(db, a, t))
  {
    var ev, d := a.ev, a.ev.data.value;
    if ApplyWebhook(db, ev, a.now, a.freshId).Ok? {
      if StatusOf(ev.kind).Some? {
        if !Ignored(Current(db, t), ev.kind, d.orderId, EventTime(ev, a.now)) {
          ApplyStatusShape(db, ev.kind, ev.mode, StatusOf(ev.kind).value, ResolveOwner(db, d).value, d, EventTime(ev, a.now), a.freshId);
        }
      } else if ev.kind.OnCanceled? {
        ApplyCanceledShape(db, t, d, EventTime(ev, a.now));
      }
    }
  }

  lemma SyncRevives(db: Tables, a: Action, t: Id)
    requires a.Sync? && t in db.subs && db.subs[t].status.Canceled? && Target(db, a) == Some(t)
    ensures var after := Step(db, a).subs;
            t in after && (!after[t].status.Canceled? <==> AcceptedStatus(db, a, t))
  {
    var order := a.lookup.order;
    var d := SyncData(a.tenant, a.externalId, order);
    if Live(order.status) && SyncOrder(db, a.env, a.tenant, a.externalId, order, a.now, a.freshId).Ok?
       && !Ignored(Current(db, t), OnActivated, order.id, OrderTime(order, a.now)) {
      ApplyStatusShape(db, OnActivated, a.env, order.status, ResolveOwner(db, d).value, d, OrderTime(order, a.now), a.freshId);
    }
  }

  /** A terminated subscription comes back exactly by an accepted event or order, or the write of a cancel request. */
  lemma OnlyTheseRevive(db: Tables, a: Action, t: Id)
    requires Inv(db) && t in db.subs && db.subs[t].status.Canceled?
    ensures t in Step(db, a).subs
    ensures !Step(db, a).subs[t].status.Canceled? <==> AcceptedStatus(db, a, t) || (a.Cancel? && a.tenant == t)
  {
    StepKeeps(db, a);
    if Target(db, a) == Some(t) {
      if a.Apply? { ApplyRevives(db, a, t); }
      if a.Sync? { SyncRevives(db, a, t); }
    }
  }

  /**
   * The write of a cancel or uncancel request does not look at the row again: a termination that came
   * after the request read it is overwritten, while the plan stays taken back.
   */
  lemma CancelOverwritesTermination(db: Tables, ev: Envelope, now: Time, freshId: Id, t: Id, cancel: bool,
      read: Subscription, later: Time)
    requires Inv(db) && ev.kind.OnCanceled? && Target(db, Apply(ev, now, freshId)) == Some(t)
    requires ApplyWebhook(db, ev, now, freshId).Ok? && !RowsKept(db, Step(db, Apply(ev, now, freshId)))
    ensures var ended := Step(db, Apply(ev, now, freshId));
            var after := Step(ended, Cancel(t, cancel, read, later));
            && t in ended.subs && ended.subs[t].status.Canceled?
            && t in after.subs && after.subs[t].status == (if cancel then Canceling else Active)
            && after.quotas == ended.quotas
            && (t in ended.quotas ==> ended.quotas[t].source.FromAdmin?)
  {
    ApplyCanceledShape(db, t, ev.data.value, EventTime(ev, now));
    StepKeeps(db, Apply(ev, now, freshId));
  }

  // ---------- order ownership ----------

  /** An event that starts nothing, for an order that is not the tenant's current one, changes no rows. */
  lemma OtherOrdersAreInert(db: Tables, ev: Envelope, now: Time, freshId: Id, t: Id)
    requires Inv(db) && !Starts(ev.kind) && t in db.subs
    requires Target(db, Apply(ev, now, freshId)) == Some(t)
    requires db.subs[t].orderId != ev.data.value.orderId
    ensures RowsKept(db, Step(db, Apply(ev, now, freshId)))
  {
  }

  // ---------- the user's choice ----------

  /** A status event older than the row's last one does not change the row, whoever it belongs to. */
  lemma OlderEventsAreInert(db: Tables, a: Action, t: Id)
    requires Inv(db) && t in db.subs && db.subs[t].lastEventAt.Some?
    requires a.Apply? && OlderStatusEvent(a.ev, db.subs[t].lastEventAt.value)
    ensures t in Step(db, a).subs && Step(db, a).subs[t] == db.subs[t]
  {
    StepKeeps(db, a);
  }

  predicate OlderStatusEvent(ev: Envelope, before: Time) {
    StatusOf(ev.kind).Some? && ev.at.Some? && ev.at.value < before
  }

  ghost predicate OlderStatusEvents(actions: seq<Action>, before: Time) {
    forall i :: 0 <= i < |actions| ==>
      actions[i].Record? || (actions[i].Apply? && OlderStatusEvent(actions[i].ev, before))
  }

  lemma {:induction false} RowOutlivesOlderEvents(db: Tables, actions: seq<Action>, t: Id)
    requires Inv(db) && t in db.subs && db.subs[t].lastEventAt.Some?
    requires OlderStatusEvents(actions, db.subs[t].lastEventAt.value)
    ensures t in Run(db, actions).subs && Run(db, actions).subs[t] == db.subs[t]
    decreases |actions|
  {
    if actions != [] {
      var a := actions[0];
      StepKeeps(db, a);
      if a.Apply? {
        OlderEventsAreInert(db, a, t);
      }
      RowOutlivesOlderEvents(Step(db, a), actions[1..], t);
    }
  }

  /** What the user chose outlives every status event from before the choice, however late it arrives. */
  lemma CancelSticks(db: Tables, t: Id, cancel: bool, read: Subscription, now: Time, actions: seq<Action>)
    requires Inv(db) && t in db.subs && OlderStatusEvents(actions, now)
    ensures var after := Run(Step(db, Cancel(t, cancel, read, now)), actions);
            t in after.subs
            && after.subs[t] == db.subs[t].(status := if cancel then Canceling else Active, cancelAtPeriodEnd := cancel,
                                            periodStart := read.periodStart, periodEnd := read.periodEnd,
                                            lastEventAt := Some(now))
  {
    StepKeeps(db, Cancel(t, cancel, read, now));
    RowOutlivesOlderEvents(Step(db, Cancel(t, cancel, read, now)), actions, t);
  }
}

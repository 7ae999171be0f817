/**
 * What events, polled orders, cancel requests and assignments write, in plain terms: which status, which
 * row, whose, from which price, and when a delivery counts as a repetition.
 */
module BillingEffects {
  import opened Common
  import opened BillingModel
  import opened BillingRuns
  import opened BillingDelivery
  import opened BillingOrder

  // ---------- whose event it is ----------

  /** Everybody who is named: by the checkout, the order's metadata, the buyer, or a row with this order. */
  ghost predicate NamedTenant(db: Tables, d: Data, t: Id) {
    || (d.externalId != "" && d.externalId in db.checkouts && db.checkouts[d.externalId].tenantId == t)
    || d.metaTenant == t
    || d.buyer == t
    || (t in db.subs && db.subs[t].orderId == d.orderId)
  }

  lemma ClaimsNameTenants(db: Tables, d: Data, t: Id)
    requires OrderUnique(db.subs)
    ensures t in TenantClaims(db, d, Holder(db.subs, d.orderId)) <==> NamedTenant(db, d, t)
  {
    var holder := Holder(db.subs, d.orderId);
    var claims := TenantClaims(db, d, holder);
    var ours := if d.externalId != "" && d.externalId in db.checkouts then [db.checkouts[d.externalId].tenantId] else [];
    var theirs := if holder.Some? then [holder.value] else [];
    assert claims == ours + [d.metaTenant, d.buyer] + theirs;
    assert claims[|ours|] == d.metaTenant && claims[|ours| + 1] == d.buyer;
    assert ours != [] ==> claims[0] == ours[0];
    assert theirs != [] ==> claims[|ours| + 2] == theirs[0];
  }

  /** An event belongs to a tenant if that one exists, is named, and nobody else is; otherwise to nobody. */
  lemma EventBelongsTo(db: Tables, d: Data, t: Id)
    requires Inv(db)
    ensures (ResolveOwner(db, d).Ok? && ResolveOwner(db, d).value.tenant == t) <==>
              t != "" && t in db.tenants && NamedTenant(db, d, t) && forall u :: NamedTenant(db, d, u) ==> u == "" || u == t
    ensures ResolveOwner(db, d).Err? ==> ResolveOwner(db, d).error == Unprocessable
  {
    var claims := TenantClaims(db, d, Holder(db.subs, d.orderId));
    forall u ensures u in claims <==> NamedTenant(db, d, u) {
      ClaimsNameTenants(db, d, u);
    }
    var tenant := FirstNonEmpty(claims);
    if t != "" && t in claims && forall u :: u in claims ==> u == "" || u == t {
      assert tenant == t;
    }
  }

  lemma {:induction false} FirstOfBoth(a: seq<string>, b: seq<string>)
    ensures FirstNonEmpty(a + b) == if FirstNonEmpty(a) != "" then FirstNonEmpty(a) else FirstNonEmpty(b)
  {
    if a == [] {
      assert a + b == b;
    } else {
      assert (a + b)[1..] == a[1..] + b;
      FirstOfBoth(a[1..], b);
    }
  }

  /** The price is the checkout's, else the order metadata's, else the product metadata's, else the row's. */
  lemma PriceByTrust(db: Tables, d: Data)
    requires ResolveOwner(db, d).Ok? && Inv(db)
    ensures var t, price := ResolveOwner(db, d).value.tenant, ResolveOwner(db, d).value.price;
            price ==
            if d.externalId != "" && d.externalId in db.checkouts && db.checkouts[d.externalId].priceId != ""
              then db.checkouts[d.externalId].priceId
            else if d.metaPrice != "" then d.metaPrice
            else if d.productPrice != "" then d.productPrice
            else if t in db.subs && db.subs[t].orderId == d.orderId then db.subs[t].priceId
            else ""
  {
    var holder := Holder(db.subs, d.orderId);
    if holder.Some? { ResolveRespectsHolder(db, d, holder.value); }
    var ours := if d.externalId != "" && d.externalId in db.checkouts then [db.checkouts[d.externalId].priceId] else [];
    var row := if holder.Some? then [db.subs[holder.value].priceId] else [];
    FirstOfBoth(ours, [d.metaPrice, d.productPrice]);
    FirstOfBoth(ours + [d.metaPrice, d.productPrice], row);
    FirstOf(d.metaPrice, d.productPrice, "");
    assert forall p: string :: FirstNonEmpty([p]) == p by {
      forall p: string ensures FirstNonEmpty([p]) == p { assert [p][1..] == []; }
    }
  }

  // ---------- status events ----------

  predicate StatusEvent(kind: EventType) {
    !kind.OnCanceled? && !kind.Unlisted?
  }

  /**
   * The order guards let an event through for a tenant without a row; else it must not be older than the
   * row's last event, and be of the row's order unless it activates or changes the plan.
   */
  predicate Admitted(db: Tables, t: Id, kind: EventType, order: Id, at: Time) {
    t in db.subs ==>
      && (db.subs[t].lastEventAt.Some? ==> db.subs[t].lastEventAt.value <= at)
      && (db.subs[t].orderId == order || kind.OnActivated? || kind.OnPlanChanged?)
  }

  /** It grants the plan when it activates, changes the plan, or is the tenant's first. */
  predicate Grants(db: Tables, t: Id, kind: EventType) {
    kind.OnActivated? || kind.OnPlanChanged? || t !in db.subs
  }

  /** What the row of an event's tenant is once the event has been booked. */
  ghost predicate RowBooked(db: Tables, row: Subscription, kind: EventType, mode: string, t: Id, price: Id, d: Data, at: Time,
      freshId: Id)
    requires price in db.prices
  {
    && (row.status.PastDue? <==> kind.OnPastDue?)
    && (row.status.Canceling? <==> kind.OnCanceling?)
    && (row.status.Active? <==>
          kind.OnActivated? || kind.OnRenewed? || kind.OnRecovered? || kind.OnUncanceled? || kind.OnPlanChanged?)
    && (row.cancelAtPeriodEnd <==> kind.OnCanceling?)
    && row.lastEventAt == Some(at) && row.orderId == d.orderId && row.mode == mode
    && row.priceId == price && row.planId == db.prices[price].planId && row.productId == db.prices[price].productId
    && row.currency == (if d.currency != "" then d.currency else db.prices[price].currency)
    && row.amount == (if d.planTotal != "" then d.planTotal else if d.amount != "" then d.amount else db.prices[price].amount)
    && row.id == (if t in db.subs then db.subs[t].id else freshId)
    && row.periodStart == (if d.periodStart.None? && t in db.subs && db.subs[t].orderId == d.orderId
                           then db.subs[t].periodStart else d.periodStart)
    && row.periodEnd == (if d.periodEnd.None? && t in db.subs && db.subs[t].orderId == d.orderId
                         then db.subs[t].periodEnd else d.periodEnd)
  }

  lemma RowIsBooked(db: Tables, kind: EventType, mode: string, status: Status, t: Id, price: Id, d: Data, at: Time,
      freshId: Id)
    requires price in db.prices && StatusOf(kind) == Some(status)
    ensures var row := RowFor(mode, status, price, db.prices[price], d, at, if t in db.subs then db.subs[t].id else freshId);
            RowBooked(db, if t in db.subs && db.subs[t].orderId == d.orderId then KeepPeriods(row, db.subs[t]) else row,
                      kind, mode, t, price, d, at, freshId)
  {
    FirstOf(d.currency, db.prices[price].currency, "");
    FirstOf(d.planTotal, d.amount, db.prices[price].amount);
  }

  /**
   * What a status event does to the tables, all of it: nothing when the guards do not admit it; otherwise,
   * if it commits, the tenant's row, the plan when it grants one, and with an activation its checkout.
   */
  lemma StatusEventEffect(db: Tables, ev: Envelope, now: Time, freshId: Id, t: Id)
    requires StatusEvent(ev.kind) && ev.data.Some? && ev.data.value.orderId != ""
    requires ResolveOwner(db, ev.data.value).Ok? && t == ResolveOwner(db, ev.data.value).value.tenant
    ensures var d, price := ev.data.value, ResolveOwner(db, ev.data.value).value.price;
            var at := if ev.at.Some? then ev.at.value else now;
            var r := ApplyWebhook(db, ev, now, freshId);
            && (!Admitted(db, t, ev.kind, d.orderId, at) ==> r == Ok(db))
            && (Admitted(db, t, ev.kind, d.orderId, at) && r.Ok? ==>
                  var after := r.value;
                  && price != "" && price in db.prices
                  && after == db.(subs := after.subs, quotas := after.quotas, checkouts := after.checkouts)
                  && t in after.subs && after.subs == db.subs[t := after.subs[t]]
                  && RowBooked(db, after.subs[t], ev.kind, ev.mode, t, price, d, at, freshId)
                  && (if Grants(db, t, ev.kind)
                      then t in db.quotas && after.quotas == db.quotas[t := Quota(db.prices[price].planId, FromSubscription, Some(after.subs[t].id))]
                      else after.quotas == db.quotas)
                  && (if ev.kind.OnActivated? && d.externalId != "" && d.externalId in db.checkouts
                         && db.checkouts[d.externalId].status.CheckoutPending?
                      then after.checkouts == db.checkouts[d.externalId := db.checkouts[d.externalId].(status := CheckoutCompleted)]
                      else after.checkouts == db.checkouts))
  {
    var d, owner := ev.data.value, ResolveOwner(db, ev.data.value).value;
    var at := if ev.at.Some? then ev.at.value else now;
    var status := StatusOf(ev.kind).value;
    assert ApplyWebhook(db, ev, now, freshId) == ApplyStatus(db, ev.kind, ev.mode, status, owner, d, at, freshId);
    if Admitted(db, t, ev.kind, d.orderId, at) && ApplyWebhook(db, ev, now, freshId).Ok? {
      ApplyStatusShape(db, ev.kind, ev.mode, status, owner, d, at, freshId);
      RowIsBooked(db, ev.kind, ev.mode, status, t, owner.price, d, at, freshId);
    }
  }

  /** An admitted status event commits exactly if its price is known, the plan can be granted and a new row's id is new. */
  lemma StatusEventCommits(db: Tables, ev: Envelope, now: Time, freshId: Id, t: Id)
    requires Inv(db) && StatusEvent(ev.kind) && ev.data.Some? && ev.data.value.orderId != ""
    requires ResolveOwner(db, ev.data.value).Ok? && t == ResolveOwner(db, ev.data.value).value.tenant
    requires Admitted(db, t, ev.kind, ev.data.value.orderId, if ev.at.Some? then ev.at.value else now)
    ensures var price := ResolveOwner(db, ev.data.value).value.price;
            ApplyWebhook(db, ev, now, freshId).Ok? <==>
              && price != "" && price in db.prices
              && (Grants(db, t, ev.kind) ==> t in db.quotas)
              && (t !in db.subs ==> forall u :: u in db.subs ==> db.subs[u].id != freshId)
    ensures var price, r := ResolveOwner(db, ev.data.value).value.price, ApplyWebhook(db, ev, now, freshId);
            r.Err? ==>
              r.error == if price == "" || price !in db.prices then Unprocessable
                         else if t in db.subs || forall u :: u in db.subs ==> db.subs[u].id != freshId then NotFound
                         else Conflict
  {
    var d, owner := ev.data.value, ResolveOwner(db, ev.data.value).value;
    var at := if ev.at.Some? then ev.at.value else now;
    var status := StatusOf(ev.kind).value;
    assert ApplyWebhook(db, ev, now, freshId) == ApplyStatus(db, ev.kind, ev.mode, status, owner, d, at, freshId);
    NoOtherHolder(db, d, owner);
    StatusCommits(db, ev.kind, ev.mode, status, owner, d, at, freshId);
  }

  lemma BookCommits(db: Tables, t: Id, sub: Subscription, grants: bool, completes: Id)
    requires forall u :: u in db.subs && u != t ==> db.subs[u].orderId != sub.orderId
    ensures Book(db, t, sub, grants, completes).Ok? <==>
              (grants ==> t in db.quotas) && (t !in db.subs ==> forall u :: u in db.subs ==> db.subs[u].id != sub.id)
    ensures Book(db, t, sub, grants, completes).Err? ==>
              Book(db, t, sub, grants, completes).error ==
              if t in db.subs || forall u :: u in db.subs ==> db.subs[u].id != sub.id then NotFound else Conflict
  {
  }

  lemma StatusCommits(db: Tables, kind: EventType, mode: string, status: Status, owner: Owner, d: Data, at: Time, freshId: Id)
    requires Admitted(db, owner.tenant, kind, d.orderId, at)
    requires forall u :: u in db.subs && u != owner.tenant ==> db.subs[u].orderId != d.orderId
    ensures ApplyStatus(db, kind, mode, status, owner, d, at, freshId).Ok? <==>
              && owner.price != "" && owner.price in db.prices
              && (Grants(db, owner.tenant, kind) ==> owner.tenant in db.quotas)
              && (owner.tenant !in db.subs ==> forall u :: u in db.subs ==> db.subs[u].id != freshId)
    ensures ApplyStatus(db, kind, mode, status, owner, d, at, freshId).Err? ==>
              ApplyStatus(db, kind, mode, status, owner, d, at, freshId).error ==
              if owner.price == "" || owner.price !in db.prices then Unprocessable
              else if owner.tenant in db.subs || forall u :: u in db.subs ==> db.subs[u].id != freshId then NotFound
              else Conflict
  {
    if owner.price != "" && owner.price in db.prices {
      var current := Current(db, owner.tenant);
      var sub := RowToBook(current, mode, status, owner.price, db.prices[owner.price], d, at, freshId);
      var grants := Starts(kind) || current.None? || current.value.orderId != d.orderId;
      AcceptedIsBooked(db, kind, mode, status, owner, d, at, freshId);
      BookCommits(db, owner.tenant, sub, grants, if kind.OnActivated? then d.externalId else "");
    }
  }

  /** Events that are neither a status nor a termination change nothing; the others need an order and one owner. */
  lemma OtherEventsChangeNothing(db: Tables, ev: Envelope, now: Time, freshId: Id)
    ensures ev.kind.Unlisted? ==> ApplyWebhook(db, ev, now, freshId) == Ok(db)
    ensures !ev.kind.Unlisted? && (ev.data.None? || ev.data.value.orderId == "" || ResolveOwner(db, ev.data.value).Err?) ==>
              ApplyWebhook(db, ev, now, freshId) == Err(Unprocessable)
  {
  }

  /** A termination marks the order's row canceled, once, and takes back the plan it granted. */
  lemma TerminationEffect(db: Tables, ev: Envelope, now: Time, freshId: Id, t: Id)
    requires ev.kind.OnCanceled? && ev.data.Some? && ev.data.value.orderId != ""
    requires ResolveOwner(db, ev.data.value).Ok? && t == ResolveOwner(db, ev.data.value).value.tenant
    ensures var at := if ev.at.Some? then ev.at.value else now;
            var r := ApplyWebhook(db, ev, now, freshId);
            if t in db.subs && db.subs[t].orderId == ev.data.value.orderId && !db.subs[t].status.Canceled? then
              var ended := db.(subs := db.subs[t := db.subs[t].(status := Canceled, cancelAtPeriodEnd := false, lastEventAt := Some(at))]);
              if t in db.quotas && db.quotas[t].source.FromSubscription? && db.quotas[t].subscriptionId == Some(db.subs[t].id) then
                r == if db.defaultPlan.Some? then Ok(ended.(quotas := db.quotas[t := Quota(db.defaultPlan.value, FromAdmin, None)]))
                     else Err(Constraint)
              else r == Ok(ended)
            else r == Ok(db)
  {
    var at := if ev.at.Some? then ev.at.value else now;
    assert ApplyWebhook(db, ev, now, freshId) == ApplyCanceled(db, t, ev.data.value, at);
  }

  // ---------- repetitions ----------

  /** Which delivery an event is of: its event id, or its own where it has none. */
  function Identity(ev: Envelope): (EventType, Id, string) {
    (ev.kind, if ev.eventId != "" then ev.eventId else ev.id, ev.mode)
  }

  /**
   * After an event has been processed another one is answered without being applied exactly if it is of
   * the same type, id and mode.
   */
  lemma RepetitionsAreTheSameEvent(db: Tables, ev: Envelope, other: Envelope, now: Time, freshId: Id)
    requires Identity(ev).1 != "" && Identity(other).1 != "" && ev.kind != Unlisted("") && other.kind != Unlisted("")
    requires !AlreadyProcessed(db, KeyOf(ev)) && !AlreadyProcessed(db, KeyOf(other))
    requires ApplyWebhook(db, ev, now, freshId).Ok?
    ensures var after := Deliver(db, ev, now, freshId, UNDISTURBED).0;
            AlreadyProcessed(after, KeyOf(other)) <==> Identity(other) == Identity(ev)
    ensures var after := Deliver(db, ev, now, freshId, UNDISTURBED).0;
            Identity(other) == Identity(ev) ==> Deliver(after, other, now, freshId, UNDISTURBED) == (after, None)
  {
    DeliverySucceeds(db, ev, now, freshId);
  }

  // ---------- the user's request and the administrator's ----------

  /** A cancel request writes `canceling` and the flag, taking it back `active` and no flag, and the time. */
  lemma RequestEffect(db: Tables, t: Id, cancel: bool, read: Subscription, now: Time)
    ensures var r := CancelCommit(db, t, cancel, read, now);
            if t in db.subs then
              r == Ok(db.(subs := db.subs[t := db.subs[t].(
                     status := if cancel then Canceling else Active, cancelAtPeriodEnd := cancel,
                     periodStart := read.periodStart, periodEnd := read.periodEnd, lastEventAt := Some(now))]))
            else r == Err(NotFound)
  {
  }

  lemma AssignmentEffect(db: Tables, t: Id, planId: Id)
    ensures AssignPlan(db, t, planId) ==
            if t in db.tenants && planId in db.plans && t in db.quotas
            then Ok(db.(quotas := db.quotas[t := Quota(planId, FromAdmin, None)])) else Err(NotFound)
  {
  }

  // ---------- polling and checkouts ----------

  /** Polling on a tenant's behalf books for that tenant or for nobody. */
  lemma PollingBooksOnesOwn(db: Tables, tenant: Id, e: Id, order: Order)
    requires Inv(db) && tenant != "" && ResolveOwner(db, SyncData(tenant, e, order)).Ok?
    ensures ResolveOwner(db, SyncData(tenant, e, order)).value.tenant == tenant
  {
    var d := SyncData(tenant, e, order);
    EventBelongsTo(db, d, ResolveOwner(db, d).value.tenant);
    assert NamedTenant(db, d, tenant);
  }

  /**
   * What one poll does: a failed lookup or a session just ended, nothing; one that ended more than five
   * minutes ago without an order, its checkout expires; and of orders only those in service are booked.
   */
  lemma PollEffect(db: Tables, env: string, tenant: Id, e: Id, seen: Checkout, lookup: Lookup, now: Time, freshId: Id)
    ensures SyncCheckout(db, env, tenant, e, seen, lookup, now, freshId) ==
            match lookup
            case LookupFailed => Err(Upstream)
            case NoOrder =>
              if seen.expiresAt.None? || now <= seen.expiresAt.value + 300 then Ok(db)
              else if e !in db.checkouts then Err(NotFound)
              else Ok(db.(checkouts := db.checkouts[e := db.checkouts[e].(status := CheckoutExpired, expiresAt := seen.expiresAt)]))
            case Found(order) =>
              if order.status.Active? || order.status.Canceling? || order.status.PastDue?
              then SyncOrder(db, env, tenant, e, order, now, freshId) else Ok(db)
  {
  }

  /** A checkout is opened once. */
  lemma OpeningEffect(db: Tables, e: Id, checkout: Checkout)
    ensures OpenCheckout(db, e, checkout) ==
            if e in db.checkouts then Err(Conflict) else Ok(db.(checkouts := db.checkouts[e := checkout]))
  {
  }

  /** What a delivery answers: a malformed request, a failing store, or what its transaction says. */
  lemma DeliveryAnswers(db: Tables, ev: Envelope, now: Time, freshId: Id, faults: Faults)
    ensures var r := ApplyWebhook(db, ev, now, freshId);
            Deliver(db, ev, now, freshId, faults).1 ==
            if Identity(ev).1 == "" || ev.kind == Unlisted("") then Some(Unprocessable)
            else if faults.register || (KeyOf(ev) in db.events && faults.ask) then Some(Store)
            else if KeyOf(ev) in db.events && db.events[KeyOf(ev)] == Processed then None
            else if faults.transact then Some(Store)
            else if r.Err? then Some(r.error)
            else if faults.mark then Some(Store) else None
  {
    var reg := Register(db, KeyOf(ev));
    assert reg == db.(events := reg.events);
    WebhookIgnoresEvents(db, reg.events, ev, now, freshId);
  }

  lemma CompletedOnlyFromPending(checkouts: map<Id, Checkout>, done: Id, e: Id)
    requires e in checkouts
    ensures e in Completed(checkouts, done)
    ensures Completed(checkouts, done)[e] == checkouts[e]
         || (e == done && checkouts[e].status.CheckoutPending? && Completed(checkouts, done)[e] == checkouts[e].(status := CheckoutCompleted))
  {
  }

  lemma ApplyMovesCheckouts(db: Tables, ev: Envelope, now: Time, freshId: Id, e: Id)
    requires e in db.checkouts && ApplyWebhook(db, ev, now, freshId).Ok?
    ensures var after := ApplyWebhook(db, ev, now, freshId).value.checkouts;
            && e in after
            && (after[e] == db.checkouts[e]
                || (db.checkouts[e].status.CheckoutPending? && after[e] == db.checkouts[e].(status := CheckoutCompleted)))
  {
    if ev.data.Some? && ev.data.value.orderId != "" && ResolveOwner(db, ev.data.value).Ok? {
      var t := ResolveOwner(db, ev.data.value).value.tenant;
      if StatusEvent(ev.kind) {
        StatusEventEffect(db, ev, now, freshId, t);
      } else if ev.kind.OnCanceled? {
        TerminationEffect(db, ev, now, freshId, t);
      }
    }
  }

  lemma SyncMovesCheckouts(db: Tables, a: Action, e: Id)
    requires a.Sync? && a.lookup.Found? && e in db.checkouts
    ensures var after := Step(db, a).checkouts;
            && e in after
            && (after[e] == db.checkouts[e]
                || (db.checkouts[e].status.CheckoutPending? && after[e] == db.checkouts[e].(status := CheckoutCompleted)))
  {
    var order := a.lookup.order;
    var d := SyncData(a.tenant, a.externalId, order);
    var r := SyncOrder(db, a.env, a.tenant, a.externalId, order, a.now, a.freshId);
    if Live(order.status) && r.Ok? {
      var owner := ResolveOwner(db, d).value;
      var booked := ApplyStatus(db, OnActivated, a.env, order.status, owner, d, OrderTime(order, a.now), a.freshId).value;
      if !Ignored(Current(db, owner.tenant), OnActivated, order.id, OrderTime(order, a.now)) {
        ApplyStatusShape(db, OnActivated, a.env, order.status, owner, d, OrderTime(order, a.now), a.freshId);
      }
      CompletedOnlyFromPending(db.checkouts, a.externalId, e);
      CompletedOnlyFromPending(booked.checkouts, a.externalId, e);
    }
  }

  /**
   * A checkout stays as it is, or goes from pending to completed, or is marked expired by a poll that found
   * no order; so one that failed or expired is never completed.
   */
  lemma CheckoutsMoveForward(db: Tables, a: Action, e: Id)
    requires e in db.checkouts
    ensures var after := Step(db, a).checkouts;
            && e in after && after[e].tenantId == db.checkouts[e].tenantId && after[e].priceId == db.checkouts[e].priceId
            && (|| after[e].status == db.checkouts[e].status
                || (db.checkouts[e].status.CheckoutPending? && after[e].status.CheckoutCompleted?)
                || (after[e].status.CheckoutExpired? && a.Sync? && a.lookup.NoOrder? && a.externalId == e))
  {
    match a
    case Apply(ev, now, freshId) =>
      if ApplyWebhook(db, ev, now, freshId).Ok? { ApplyMovesCheckouts(db, ev, now, freshId, e); }
    case Sync(_, _, _, _, _, _, _) =>
      PollEffect(db, a.env, a.tenant, a.externalId, a.seen, a.lookup, a.now, a.freshId);
      if a.lookup.Found? { SyncMovesCheckouts(db, a, e); }
    case _ =>
  }

  /** Over any run a checkout that is no longer pending is never completed any more. */
  lemma {:induction false} NeverRevived(db: Tables, actions: seq<Action>, e: Id)
    requires e in db.checkouts && !db.checkouts[e].status.CheckoutPending? && !db.checkouts[e].status.CheckoutCompleted?
    ensures e in Run(db, actions).checkouts
    ensures Run(db, actions).checkouts[e].status == db.checkouts[e].status || Run(db, actions).checkouts[e].status.CheckoutExpired?
    decreases |actions|
  {
    if actions != [] {
      CheckoutsMoveForward(db, actions[0], e);
      NeverRevived(Step(db, actions[0]), actions[1..], e);
    }
  }

  // ---------- rows ----------

  /** One row per tenant: a tenant's row keeps its id; nobody else's order, in the same mode, or id is taken. */
  lemma RowsStayUnique(db: Tables, t: Id, sub: Subscription)
    ensures var taken := exists u :: u in db.subs && u != t
                           && ((db.subs[u].orderId == sub.orderId && db.subs[u].mode == sub.mode)
                               || (t !in db.subs && db.subs[u].id == sub.id));
            Upsert(db, t, sub) ==
            if taken then Err(Conflict)
            else Ok(db.(subs := db.subs[t := sub.(id := if t in db.subs then db.subs[t].id else sub.id)]))
  {
  }
}

/**
 * The billing service over mutable tables: statements change one column of the
 * state at a time, transactions put everything back when a statement fails, and
 * each method is proved to leave exactly what its function in BillingModel says.
 */
module BillingService {
  import opened Common
  import opened BillingModel
  import opened BillingRuns
  import opened BillingRace

  /** A statement or transaction did what its function says; after an error the state is whatever was reached. */
  ghost predicate Follows(after: Tables, err: Option<Error>, spec: Result<Tables, Error>) {
    if spec.Ok? then err.None? && after == spec.value else err == Some(spec.error)
  }

  ghost function SyncAll(db: Tables, env: string, t: Id, pending: seq<Polled>, now: Time): Tables {
    if pending == [] then db
    else
      var p := pending[|pending| - 1];
      var before := SyncAll(db, env, t, pending[..|pending| - 1], now);
      Effect(before, SyncCheckout(before, env, t, p.externalId, p.seen, p.lookup, now, p.freshId))
  }

  /** One pending checkout as read from the table, and what the provider says about it. */
  datatype Polled = Polled(externalId: Id, seen: Checkout, lookup: Lookup, freshId: Id)

  function StatusName(status: Status): string {
    match status
    case Pending => "pending"
    case Active => "active"
    case Canceling => "canceling"
    case PastDue => "past_due"
    case Canceled => "canceled"
    case Expired => "expired"
  }

  function SubscriptionKey(sub: Option<Subscription>): string {
    if sub.None? then "" else sub.value.orderId + "|" + StatusName(sub.value.status) + "|" + sub.value.planId
  }

  /** The one tenant all non-empty claims name, if there is exactly one. */
  method AgreeOnTenant(claims: seq<Id>) returns (r: Option<Id>)
    ensures r.Some? ==> Names(claims, r.value) && r.value == FirstNonEmpty(claims)
    ensures r.None? ==> forall t :: !Names(claims, t)
  {
    var tenant := "";
    for i := 0 to |claims|
      invariant forall j :: 0 <= j < i ==> claims[j] == "" || claims[j] == tenant
      invariant tenant != "" ==> tenant in claims[..i]
    {
      if claims[i] != "" {
        if tenant != "" && claims[i] != tenant {
          assert tenant in claims && claims[i] in claims;
          return None;
        }
        tenant := claims[i];
      }
    }
    if tenant == "" {
      return None;
    }
    assert Names(claims, tenant);
    r := Some(tenant);
  }

  method FirstClaim(values: seq<Id>) returns (r: Id)
    ensures r == FirstNonEmpty(values)
  {
    for i := 0 to |values|
      invariant FirstNonEmpty(values) == FirstNonEmpty(values[i..])
    {
      if values[i] != "" {
        return values[i];
      }
      assert values[i..][1..] == values[i + 1..];
    }
    r := "";
  }

  class BillingStore {
    var tenants: set<Id>
    var plans: set<Id>
    var prices: map<Id, Price>
    var defaultPlan: Option<Id>
    var subs: map<Id, Subscription>
    var quotas: map<Id, Quota>
    var checkouts: map<Id, Checkout>
    var events: map<EventKey, EventStatus>

    ghost function Snapshot(): Tables
      reads this
    {
      Tables(tenants, plans, prices, defaultPlan, subs, quotas, checkouts, events)
    }

    ghost predicate Valid()
      reads this
    {
      Inv(Snapshot())
    }

    // ---------- reads ----------

    method FindHolder(order: Id) returns (holder: Option<Id>)
      requires Valid()
      ensures holder == Holder(subs, order)
    {
      if t :| t in subs && subs[t].orderId == order {
        holder := Some(t);
      } else {
        holder := None;
      }
    }

    /** Collects every claim about the tenant and refuses when two disagree or none speaks. */
    method FindOwner(d: Data) returns (r: Result<Owner, Error>)
      requires Valid()
      ensures r == ResolveOwner(Snapshot(), d)
    {
      var claims: seq<Id>, prices: seq<Id> := [], [];
      if d.externalId != "" && d.externalId in checkouts {
        claims, prices := [checkouts[d.externalId].tenantId], [checkouts[d.externalId].priceId];
      }
      claims, prices := claims + [d.metaTenant, d.buyer], prices + [d.metaPrice, d.productPrice];
      var holder := FindHolder(d.orderId);
      if holder.Some? {
        claims, prices := claims + [holder.value], prices + [subs[holder.value].priceId];
      }
      assert claims == TenantClaims(Snapshot(), d, holder) && prices == PriceClaims(Snapshot(), d, holder);
      var tenant := AgreeOnTenant(claims);
      if tenant.None? || tenant.value !in tenants {
        return Err(Unprocessable);
      }
      var price := FirstClaim(prices);
      r := Ok(Owner(tenant.value, price));
    }

    // ---------- statements ----------

    method UpsertSubscription(t: Id, sub: Subscription) returns (err: Option<Error>)
      modifies this`subs
      ensures Follows(Snapshot(), err, Upsert(old(Snapshot()), t, sub))
    {
      if exists u :: u in subs && u != t
          && ((subs[u].orderId == sub.orderId && subs[u].mode == sub.mode) || (t !in subs && subs[u].id == sub.id)) {
        return Some(Conflict);
      }
      subs := subs[t := if t in subs then sub.(id := subs[t].id) else sub];
      err := None;
    }

    method UpdateSubscriptionQuota(t: Id, planId: Id, subscriptionId: Id) returns (err: Option<Error>)
      modifies this`quotas
      ensures Follows(Snapshot(), err, GrantQuota(old(Snapshot()), t, planId, subscriptionId))
    {
      if t !in quotas {
        return Some(NotFound);
      }
      quotas := quotas[t := Quota(planId, FromSubscription, Some(subscriptionId))];
      err := None;
    }

    method RestoreQuotaSource(t: Id, subscriptionId: Id) returns (err: Option<Error>)
      modifies this`quotas
      ensures Follows(Snapshot(), err, RestoreQuota(old(Snapshot()), t, subscriptionId))
    {
      err := None;
      if t in quotas && quotas[t].source.FromSubscription? && quotas[t].subscriptionId == Some(subscriptionId) {
        if defaultPlan.None? {
          return Some(Constraint);
        }
        quotas := quotas[t := Quota(defaultPlan.value, FromAdmin, None)];
      }
    }

    method MarkCheckoutCompleted(externalId: Id)
      modifies this`checkouts
      ensures Snapshot() == MarkCompleted(old(Snapshot()), externalId)
    {
      if externalId in checkouts && checkouts[externalId].status.CheckoutPending? {
        checkouts := checkouts[externalId := checkouts[externalId].(status := CheckoutCompleted)];
      }
    }

    method UpdateSubscriptionStatus(t: Id, status: Status, cancel: bool, start: Option<Time>, end: Option<Time>,
        at: Time)
      returns (err: Option<Error>)
      modifies this`subs
      ensures Follows(Snapshot(), err, UpdateStatus(old(Snapshot()), t, status, cancel, start, end, at))
    {
      if t !in subs {
        return Some(NotFound);
      }
      subs := subs[t := subs[t].(status := status, cancelAtPeriodEnd := cancel, periodStart := start,
                                 periodEnd := end, lastEventAt := Some(at))];
      err := None;
    }

    // ---------- transactions ----------

    method BookSubscription(t: Id, sub: Subscription, grants: bool, completes: Id) returns (err: Option<Error>)
      modifies this`subs, this`quotas, this`checkouts
      ensures Follows(Snapshot(), err, Book(old(Snapshot()), t, sub, grants, completes))
    {
      err := UpsertSubscription(t, sub);
      if err.Some? {
        return;
      }
      if grants {
        err := UpdateSubscriptionQuota(t, sub.planId, sub.id);
        if err.Some? {
          return;
        }
      }
      if completes != "" {
        MarkCheckoutCompleted(completes);
      }
    }

    method NextRow(current: Option<Subscription>, mode: string, status: Status, priceId: Id, price: Price, d: Data,
                   at: Time, freshId: Id) returns (sub: Subscription)
      ensures sub == RowToBook(current, mode, status, priceId, price, d, at, freshId)
    {
      sub := RowFor(mode, status, priceId, price, d, at, freshId);
      if current.None? {
        return;
      }
      sub := sub.(id := current.value.id);
      if current.value.orderId == d.orderId {
        if sub.periodStart.None? {
          sub := sub.(periodStart := current.value.periodStart);
        }
        if sub.periodEnd.None? {
          sub := sub.(periodEnd := current.value.periodEnd);
        }
      }
    }

    /** The three writes, once the guards have let the event through and its price is known. */
    method ApplyAccepted(kind: EventType, mode: string, status: Status, owner: Owner, d: Data, at: Time, freshId: Id)
      returns (err: Option<Error>)
      requires !Ignored(Current(Snapshot(), owner.tenant), kind, d.orderId, at)
      requires owner.price != "" && owner.price in prices
      modifies this`subs, this`quotas, this`checkouts
      ensures Follows(Snapshot(), err, BillingModel.ApplyStatus(old(Snapshot()), kind, mode, status, owner, d, at, freshId))
    {
      var current := if owner.tenant in subs then Some(subs[owner.tenant]) else None;
      var sub := NextRow(current, mode, status, owner.price, prices[owner.price], d, at, freshId);
      var sameOrder := current.Some? && current.value.orderId == d.orderId;
      err := BookSubscription(owner.tenant, sub, Starts(kind) || !sameOrder, if kind.OnActivated? then d.externalId else "");
    }

    method ApplyStatus(kind: EventType, mode: string, status: Status, owner: Owner, d: Data, at: Time, freshId: Id)
      returns (err: Option<Error>)
      modifies this`subs, this`quotas, this`checkouts
      ensures Follows(Snapshot(), err, BillingModel.ApplyStatus(old(Snapshot()), kind, mode, status, owner, d, at, freshId))
    {
      var t := owner.tenant;
      if t in subs {
        var stale := subs[t].lastEventAt.Some? && at < subs[t].lastEventAt.value;
        if stale || (subs[t].orderId != d.orderId && !Starts(kind)) {
          return None;
        }
      }
      if owner.price == "" || owner.price !in prices {
        return Some(Unprocessable);
      }
      err := ApplyAccepted(kind, mode, status, owner, d, at, freshId);
    }

    method ApplyCanceled(t: Id, d: Data, at: Time) returns (err: Option<Error>)
      modifies this`subs, this`quotas
      ensures Follows(Snapshot(), err, BillingModel.ApplyCanceled(old(Snapshot()), t, d, at))
    {
      if t !in subs || subs[t].orderId != d.orderId || subs[t].status.Canceled? {
        return None;
      }
      var current := subs[t];
      err := UpdateSubscriptionStatus(t, Canceled, false, current.periodStart, current.periodEnd, at);
      if err.Some? {
        return;
      }
      err := RestoreQuotaSource(t, current.id);
    }

    method ApplyWebhook(ev: Envelope, now: Time, freshId: Id) returns (err: Option<Error>)
      requires Valid()
      modifies this`subs, this`quotas, this`checkouts
      ensures Follows(Snapshot(), err, BillingModel.ApplyWebhook(old(Snapshot()), ev, now, freshId))
    {
      var status := StatusOf(ev.kind);
      if status.None? && !ev.kind.OnCanceled? {
        return None;
      }
      if ev.data.None? || ev.data.value.orderId == "" {
        return Some(Unprocessable);
      }
      var at := now;
      if ev.at.Some? {
        at := ev.at.value;
      }
      var owner := FindOwner(ev.data.value);
      if owner.Err? {
        return Some(owner.error);
      }
      if ev.kind.OnCanceled? {
        err := ApplyCanceled(owner.value.tenant, ev.data.value, at);
      } else {
        err := ApplyStatus(ev.kind, ev.mode, status.value, owner.value, ev.data.value, at, freshId);
      }
    }

    // ---------- deliveries ----------

    /** INSERT ... ON CONFLICT DO NOTHING: a key that is there is left as it is. */
    method InsertWebhookEvent(key: EventKey, fails: bool) returns (inserted: bool, err: Option<Error>)
      modifies this`events
      ensures err == if fails then Some(Store) else None
      ensures Snapshot() == if fails then old(Snapshot()) else Register(old(Snapshot()), key)
      ensures !fails ==> (inserted <==> key !in old(events))
    {
      inserted := false;
      if fails {
        return false, Some(Store);
      }
      if key !in events {
        events := events[key := Received];
        inserted := true;
      }
      err := None;
    }

    method GetWebhookEventStatus(key: EventKey, fails: bool) returns (status: Result<EventStatus, Error>)
      ensures status == if fails then Err(Store) else if key in events then Ok(events[key]) else Err(NotFound)
    {
      if fails {
        return Err(Store);
      }
      if key !in events {
        return Err(NotFound);
      }
      status := Ok(events[key]);
    }

    /** UPDATE ... WHERE the key: whatever the status was. */
    method UpdateWebhookEvent(key: EventKey, status: EventStatus, fails: bool) returns (err: Option<Error>)
      modifies this`events
      ensures err == if fails then Some(Store) else if key in old(events) then None else Some(NotFound)
      ensures Snapshot() == if err.None? then Mark(old(Snapshot()), key, status) else old(Snapshot())
    {
      if fails {
        return Some(Store);
      }
      if key !in events {
        return Some(NotFound);
      }
      events := events[key := status];
      err := None;
    }

    /** Runs the event in a transaction: on an error, its own or the store's, the rows are put back. */
    method ApplyInTransaction(ev: Envelope, now: Time, freshId: Id, fails: bool) returns (err: Option<Error>)
      requires Valid()
      modifies this`subs, this`quotas, this`checkouts
      ensures Valid()
      ensures Snapshot() == Effect(old(Snapshot()), Transact(old(Snapshot()), ev, now, freshId, fails))
      ensures err == ErrorOf(Transact(old(Snapshot()), ev, now, freshId, fails))
    {
      ApplyWebhookKeeps(Snapshot(), ev, now, freshId);
      var savedSubs, savedQuotas, savedCheckouts := subs, quotas, checkouts;
      err := ApplyWebhook(ev, now, freshId);
      if fails {
        err := Some(Store);
      }
      if err.Some? {
        subs, quotas, checkouts := savedSubs, savedQuotas, savedCheckouts;
      }
    }

    /** `body` is None when the request is not JSON; `faults` says which statements the store fails. */
    method ProcessWebhook(body: Option<Envelope>, now: Time, freshId: Id, faults: Faults) returns (err: Option<Error>)
      requires Valid()
      modifies this
      ensures Valid()
      ensures body.None? ==> err == Some(Unprocessable) && Snapshot() == old(Snapshot())
      ensures body.Some? ==> (Snapshot(), err) == Deliver(old(Snapshot()), body.value, now, freshId, faults)
    {
      if body.None? {
        return Some(Unprocessable);
      }
      var ev := body.value;
      var key := EventKey(ev.kind, if ev.eventId == "" then ev.id else ev.eventId, ev.mode);
      if key.eventId == "" || ev.kind == Unlisted("") {
        return Some(Unprocessable);
      }
      var inserted, insertErr := InsertWebhookEvent(key, faults.register);
      if insertErr.Some? {
        return insertErr;
      }
      if !inserted {
        var status := GetWebhookEventStatus(key, faults.ask);
        if status.Err? {
          return Some(status.error);
        }
        if status.value.Processed? {
          return None;
        }
      }
      err := ApplyInTransaction(ev, now, freshId, faults.transact);
      var markErr := UpdateWebhookEvent(key, if err.Some? then Failed else Processed, faults.mark);
      if err.None? {
        err := markErr;
      }
    }

    /** Books one order the provider reports, in one transaction. */
    method SyncOrderInTransaction(env: string, t: Id, externalId: Id, order: Order, now: Time, freshId: Id)
      returns (err: Option<Error>)
      requires Valid()
      modifies this`subs, this`quotas, this`checkouts
      ensures Snapshot() == Effect(old(Snapshot()), SyncOrder(old(Snapshot()), env, t, externalId, order, now, freshId))
      ensures err.None? <==> SyncOrder(old(Snapshot()), env, t, externalId, order, now, freshId).Ok?
    {
      var savedSubs, savedQuotas, savedCheckouts := subs, quotas, checkouts;
      var d := SyncData(t, externalId, order);
      var owner := FindOwner(d);
      if owner.Err? {
        return Some(owner.error);
      }
      err := ApplyStatus(OnActivated, env, order.status, owner.value, d, OrderTime(order, now), freshId);
      if err.Some? {
        subs, quotas, checkouts := savedSubs, savedQuotas, savedCheckouts;
        return;
      }
      MarkCheckoutCompleted(externalId);
    }

    method SyncOne(env: string, t: Id, p: Polled, now: Time) returns (err: Option<Error>)
      requires Valid()
      modifies this`subs, this`quotas, this`checkouts
      ensures Valid()
      ensures Snapshot() == Effect(old(Snapshot()),
                SyncCheckout(old(Snapshot()), env, t, p.externalId, p.seen, p.lookup, now, p.freshId))
    {
      StepKeeps(Snapshot(), Sync(env, t, p.externalId, p.seen, p.lookup, now, p.freshId));
      err := None;
      match p.lookup {
        case LookupFailed =>
          err := Some(Upstream);
        case NoOrder =>
          if p.seen.expiresAt.Some? && now - p.seen.expiresAt.value > EXPIRY_GRACE {
            if p.externalId !in checkouts {
              return Some(NotFound);
            }
            checkouts := checkouts[p.externalId := checkouts[p.externalId].(
              status := CheckoutExpired, expiresAt := p.seen.expiresAt)];
          }
        case Found(order) =>
          if Live(order.status) {
            err := SyncOrderInTransaction(env, t, p.externalId, order, now, p.freshId);
          }
      }
    }

    /** Polls every pending checkout in turn; one failure does not stop the rest. */
    method SyncCheckouts(configured: bool, env: string, t: Id, pending: seq<Polled>, now: Time)
      returns (sub: Option<Subscription>, changed: bool)
      requires Valid()
      modifies this`subs, this`quotas, this`checkouts
      ensures Valid()
      ensures Snapshot() == if configured then SyncAll(old(Snapshot()), env, t, pending, now) else old(Snapshot())
      ensures sub == Current(Snapshot(), t)
      ensures changed <==> SubscriptionKey(Current(old(Snapshot()), t)) != SubscriptionKey(sub)
    {
      var before := if t in subs then Some(subs[t]) else None;
      if !configured || pending == [] {
        return before, false;
      }
      for i := 0 to |pending|
        invariant Valid()
        invariant Snapshot() == SyncAll(old(Snapshot()), env, t, pending[..i], now)
      {
        var err := SyncOne(env, t, pending[i], now);
        assert pending[..i + 1][..i] == pending[..i];
      }
      assert pending[..|pending|] == pending;
      sub := if t in subs then Some(subs[t]) else None;
      changed := SubscriptionKey(before) != SubscriptionKey(sub);
    }

    /** Asks for cancellation at period end, or takes it back; `accepted` is the provider's answer. */
    method Cancel(t: Id, cancel: bool, configured: bool, accepted: bool, now: Time) returns (err: Option<Error>)
      requires Valid()
      modifies this`subs
      ensures Valid()
      ensures err.None? <==> t in old(subs) && configured && accepted
                             && old(subs)[t].status == (if cancel then Active else Canceling)
      ensures Snapshot() == if err.None? then CancelCommit(old(Snapshot()), t, cancel, old(subs)[t], now).value
                            else old(Snapshot())
      ensures err.None? ==> subs == old(subs)[t := old(subs)[t].(
                              status := if cancel then Canceling else Active, cancelAtPeriodEnd := cancel, lastEventAt := Some(now))]
    {
      if t !in subs {
        return Some(NotFound);
      }
      var sub := subs[t];
      if !configured {
        return Some(Upstream);
      }
      if sub.status != (if cancel then Active else Canceling) {
        return Some(BadRequest);
      }
      if !accepted {
        return Some(Upstream);
      }
      StepKeeps(Snapshot(), Action.Cancel(t, cancel, sub, now));
      err := UpdateSubscriptionStatus(t, if cancel then Canceling else Active, cancel, sub.periodStart, sub.periodEnd, now);
    }

    method AssignPlan(t: Id, planId: Id) returns (err: Option<Error>)
      requires Valid()
      modifies this`quotas
      ensures Valid()
      ensures Follows(Snapshot(), err, BillingModel.AssignPlan(old(Snapshot()), t, planId))
      ensures err.Some? ==> Snapshot() == old(Snapshot())
    {
      StepKeeps(Snapshot(), Assign(t, planId));
      if t !in tenants || planId !in plans || t !in quotas {
        return Some(NotFound);
      }
      quotas := quotas[t := Quota(planId, FromAdmin, None)];
      err := None;
    }
  }

  // ---------- what "changed" means ----------

  lemma SplitAtBar(a: string, b: string, x: string, y: string)
    requires '|' !in a && '|' !in b && a + "|" + x == b + "|" + y
    ensures a == b && x == y
  {
    var s := a + "|" + x;
    assert s[|a|] == '|' && s[|b|] == '|';
    assert forall i :: 0 <= i < |a| ==> s[i] == a[i] && a[i] in a;
    assert forall i :: 0 <= i < |b| ==> s[i] == b[i] && b[i] in b;
    assert s[..|a|] == a && s[..|b|] == b;
    assert s[|a| + 1..] == x && s[|b| + 1..] == y;
  }

  lemma StatusNamesDiffer(s: Status, u: Status)
    ensures '|' !in StatusName(s)
    ensures StatusName(s) == StatusName(u) ==> s == u
  {
    assert StatusName(Canceled)[|"cancele"|] == 'd';
    assert StatusName(s)[0] in "paces" || s.Expired?;
  }

  /** Polling reports a change exactly when the order, the status or the plan changed. */
  lemma KeyTellsApart(a: Option<Subscription>, b: Option<Subscription>)
    requires a.Some? ==> '|' !in a.value.orderId
    requires b.Some? ==> '|' !in b.value.orderId
    ensures SubscriptionKey(a) == SubscriptionKey(b) <==>
              a.Some? == b.Some?
              && (a.Some? ==> a.value.orderId == b.value.orderId && a.value.status == b.value.status && a.value.planId == b.value.planId)
  {
    if a.Some? && b.Some? {
      var x, y := a.value, b.value;
      StatusNamesDiffer(x.status, y.status);
      StatusNamesDiffer(y.status, x.status);
      if SubscriptionKey(a) == SubscriptionKey(b) {
        var p, q := StatusName(x.status) + "|" + x.planId, StatusName(y.status) + "|" + y.planId;
        assert SubscriptionKey(a) == x.orderId + "|" + p && SubscriptionKey(b) == y.orderId + "|" + q;
        SplitAtBar(x.orderId, y.orderId, p, q);
        SplitAtBar(StatusName(x.status), StatusName(y.status), x.planId, y.planId);
      }
    } else if a.Some? {
      assert |SubscriptionKey(a)| >= 2;
    } else if b.Some? {
      assert |SubscriptionKey(b)| >= 2;
    }
  }

  /** Nothing to book: no answer, no order, an order out of service, or one older than the row. */
  ghost predicate NothingNew(db: Tables, t: Id, p: Polled, now: Time) {
    p.lookup.Found? && Live(p.lookup.order.status) ==>
      ResolveOwner(db, SyncData(t, p.externalId, p.lookup.order)).Ok? ==>
        Ignored(Current(db, ResolveOwner(db, SyncData(t, p.externalId, p.lookup.order)).value.tenant),
                OnActivated, p.lookup.order.id, OrderTime(p.lookup.order, now))
  }

  /** Tables in which only checkout statuses differ poll alike. */
  lemma NothingNewStays(db: Tables, before: Tables, t: Id, p: Polled, now: Time)
    requires NothingNew(db, t, p, now) && RowsKept(db, before) && CheckoutsKept(db.checkouts, before.checkouts)
    requires before.tenants == db.tenants
    ensures NothingNew(before, t, p, now)
  {
    if p.lookup.Found? {
      var d := SyncData(t, p.externalId, p.lookup.order);
      var h := Holder(db.subs, d.orderId);
      assert TenantClaims(before, d, h) == TenantClaims(db, d, h);
      assert PriceClaims(before, d, h) == PriceClaims(db, d, h);
      assert ResolveOwner(before, d) == ResolveOwner(db, d);
    }
  }

  lemma PollingNothingNew(db: Tables, env: string, t: Id, p: Polled, now: Time)
    requires Inv(db) && NothingNew(db, t, p, now)
    ensures var after := Effect(db, SyncCheckout(db, env, t, p.externalId, p.seen, p.lookup, now, p.freshId));
            Inv(after) && RowsKept(db, after) && CheckoutsKept(db.checkouts, after.checkouts) && after.tenants == db.tenants
  {
    var after := Effect(db, SyncCheckout(db, env, t, p.externalId, p.seen, p.lookup, now, p.freshId));
    if p.lookup.Found? {
      if Live(p.lookup.order.status) && ResolveOwner(db, SyncData(t, p.externalId, p.lookup.order)).Ok? {
        StaleSync(db, env, t, p.externalId, p.lookup.order, now, p.freshId,
                  ResolveOwner(db, SyncData(t, p.externalId, p.lookup.order)).value);
        assert after == MarkCompleted(db, p.externalId);
        CompletedKeeps(db.checkouts, p.externalId);
      } else {
        assert after == db;
      }
    } else {
      assert after == db || ExpireCheckout(db, p.externalId, p.seen) == Ok(after);
    }
  }

  /** Polling orders the webhooks already booked reports no change, so the page that polls settles. */
  lemma {:induction false} PollingSettles(db: Tables, env: string, t: Id, pending: seq<Polled>, now: Time)
    requires Inv(db) && forall i :: 0 <= i < |pending| ==> NothingNew(db, t, pending[i], now)
    ensures var after := SyncAll(db, env, t, pending, now);
            Inv(after) && RowsKept(db, after) && CheckoutsKept(db.checkouts, after.checkouts) && after.tenants == db.tenants
            && SubscriptionKey(Current(after, t)) == SubscriptionKey(Current(db, t))
  {
    if pending != [] {
      var n := |pending| - 1;
      PollingSettles(db, env, t, pending[..n], now);
      var before := SyncAll(db, env, t, pending[..n], now);
      NothingNewStays(db, before, t, pending[n], now);
      PollingNothingNew(before, env, t, pending[n], now);
    }
  }
}

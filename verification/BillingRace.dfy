/** Polling and the activation webhook it races: the same tables in either order. */
module BillingRace {
  import opened Common
  import opened BillingModel
  import opened BillingRuns
  import opened BillingDelivery
  import opened BillingOrder

  ghost function AfterWebhook(db: Tables, ev: Envelope, now: Time, freshId: Id): Tables {
    Effect(db, ApplyWebhook(db, ev, now, freshId))
  }

  ghost function AfterSync(db: Tables, env: string, tenant: Id, e: Id, order: Order, now: Time, freshId: Id): Tables {
    Effect(db, SyncOrder(db, env, tenant, e, order, now, freshId))
  }

  lemma MarksCommute(m: map<Id, Checkout>, e: Id, f: Id)
    ensures Completed(Completed(m, e), f) == Completed(Completed(m, f), e)
    ensures Completed(Completed(m, e), e) == Completed(m, e)
  {
    if e != f && e in m && f in m && m[e].status.CheckoutPending? && m[f].status.CheckoutPending? {
      var x, y := m[e].(status := CheckoutCompleted), m[f].(status := CheckoutCompleted);
      assert m[e := x][f := y] == m[f := y][e := x];
    }
  }

  lemma MarkKeepsOwner(db: Tables, e: Id, d: Data)
    ensures ResolveOwner(MarkCompleted(db, e), d) == ResolveOwner(db, d)
    ensures Inv(db) ==> Inv(MarkCompleted(db, e))
  {
    var h := Holder(db.subs, d.orderId);
    assert TenantClaims(MarkCompleted(db, e), d, h) == TenantClaims(db, d, h);
    assert PriceClaims(MarkCompleted(db, e), d, h) == PriceClaims(db, d, h);
  }

  ghost function AcceptedRow(subs: map<Id, Subscription>, t: Id, mode: string, status: Status, priceId: Id,
      price: Price,
                             d: Data, at: Time, freshId: Id): Subscription {
    var row := RowFor(mode, status, priceId, price, d, at, if t in subs then subs[t].id else freshId);
    if t in subs && subs[t].orderId == d.orderId then KeepPeriods(row, subs[t]) else row
  }

  /** What an accepted activation leaves behind. */
  ghost function Accepted(db: Tables, mode: string, status: Status, owner: Owner, d: Data, at: Time,
      freshId: Id): Tables
    requires owner.price in db.prices
  {
    var t := owner.tenant;
    var sub := AcceptedRow(db.subs, t, mode, status, owner.price, db.prices[owner.price], d, at, freshId);
    db.(subs := db.subs[t := sub],
        quotas := db.quotas[t := Quota(db.prices[owner.price].planId, FromSubscription, Some(sub.id))],
        checkouts := if d.externalId != "" then Completed(db.checkouts, d.externalId) else db.checkouts)
  }

  lemma ActivationOutcome(db: Tables, mode: string, status: Status, owner: Owner, d: Data, at: Time, freshId: Id)
    requires Inv(db) && ResolveOwner(db, d) == Ok(owner) && Unused(db, freshId)
    requires !Ignored(Current(db, owner.tenant), OnActivated, d.orderId, at)
    ensures var r := ApplyStatus(db, OnActivated, mode, status, owner, d, at, freshId);
            if owner.price != "" && owner.price in db.prices && owner.tenant in db.quotas
            then r == Ok(Accepted(db, mode, status, owner, d, at, freshId)) else r.Err?
  {
    NoOtherHolder(db, d, owner);
    if owner.price != "" && owner.price in db.prices && owner.tenant in db.quotas {
      Accepts(db, OnActivated, mode, status, owner, d, at, freshId);
      ApplyStatusShape(db, OnActivated, mode, status, owner, d, at, freshId);
    } else if ApplyStatus(db, OnActivated, mode, status, owner, d, at, freshId).Ok? {
      ApplyStatusShape(db, OnActivated, mode, status, owner, d, at, freshId);
    }
  }

  /** A polled order older than the row's last event completes its checkout and nothing else. */
  lemma StaleSync(db: Tables, env: string, tenant: Id, e: Id, order: Order, now: Time, freshId: Id, owner: Owner)
    requires ResolveOwner(db, SyncData(tenant, e, order)) == Ok(owner)
    requires Ignored(Current(db, owner.tenant), OnActivated, order.id, OrderTime(order, now))
    ensures AfterSync(db, env, tenant, e, order, now, freshId) == MarkCompleted(db, e)
    ensures RowsKept(db, AfterSync(db, env, tenant, e, order, now, freshId))
  {
  }

  /** Completing a checkout first, or after an activation: the same. */
  lemma MarkThenActivate(db: Tables, e: Id, mode: string, status: Status, owner: Owner, d: Data, at: Time, freshId: Id)
    requires owner.price in db.prices
    ensures Accepted(MarkCompleted(db, e), mode, status, owner, d, at, freshId)
         == MarkCompleted(Accepted(db, mode, status, owner, d, at, freshId), e)
  {
    MarksCommute(db.checkouts, e, d.externalId);
  }

  lemma WebhookIsActivation(db: Tables, ev: Envelope, now: Time, freshId: Id, owner: Owner)
    requires Inv(db) && Unused(db, freshId) && ev.kind.OnActivated? && ev.at.Some?
    requires ev.data.Some? && ev.data.value.orderId != "" && ResolveOwner(db, ev.data.value) == Ok(owner)
    ensures var d := ev.data.value;
            AfterWebhook(db, ev, now, freshId)
            == if !Ignored(Current(db, owner.tenant), OnActivated, d.orderId, ev.at.value)
                  && owner.price != "" && owner.price in db.prices && owner.tenant in db.quotas
               then Accepted(db, ev.mode, Active, owner, d, ev.at.value, freshId) else db
  {
    ApplyIsStatus(db, ev, now, freshId, owner);
    if !Ignored(Current(db, owner.tenant), OnActivated, ev.data.value.orderId, ev.at.value) {
      ActivationOutcome(db, ev.mode, Active, owner, ev.data.value, ev.at.value, freshId);
    }
  }

  lemma SyncIsActivation(db: Tables, env: string, tenant: Id, e: Id, order: Order, now: Time, freshId: Id, owner: Owner)
    requires Inv(db) && Unused(db, freshId) && e != ""
    requires ResolveOwner(db, SyncData(tenant, e, order)) == Ok(owner)
    requires !Ignored(Current(db, owner.tenant), OnActivated, order.id, OrderTime(order, now))
    ensures AfterSync(db, env, tenant, e, order, now, freshId)
            == if owner.price != "" && owner.price in db.prices && owner.tenant in db.quotas
               then Accepted(db, env, order.status, owner, SyncData(tenant, e, order), OrderTime(order, now), freshId) else db
  {
    var d := SyncData(tenant, e, order);
    ActivationOutcome(db, env, order.status, owner, d, OrderTime(order, now), freshId);
    if owner.price in db.prices {
      MarksCommute(db.checkouts, e, e);
    }
  }

  /** An accepted activation keeps resolving, and keeps fresh ids of others unused. */
  lemma AcceptedKeeps(db: Tables, mode: string, status: Status, owner: Owner, d: Data, at: Time, freshId: Id, d2: Data)
    requires Inv(db) && ResolveOwner(db, d) == Ok(owner) && ResolveOwner(db, d2) == Ok(owner) && d2.orderId == d.orderId
    requires Unused(db, freshId) && !status.Canceled?
    requires !Ignored(Current(db, owner.tenant), OnActivated, d.orderId, at)
    requires owner.price != "" && owner.price in db.prices && owner.tenant in db.quotas
    ensures Inv(Accepted(db, mode, status, owner, d, at, freshId))
    ensures ResolveOwner(Accepted(db, mode, status, owner, d, at, freshId), d2) == Ok(owner)
  {
    ActivationOutcome(db, mode, status, owner, d, at, freshId);
    ApplyStatusKeeps(db, OnActivated, mode, status, d, at, freshId);
    ApplyStatusShape(db, OnActivated, mode, status, owner, d, at, freshId);
    ResolveStable(db, Accepted(db, mode, status, owner, d, at, freshId), d2);
  }

  /** A newer row with both bounds shows nothing of the row it replaces but the id. */
  lemma RowOverwrites(subs: map<Id, Subscription>, t: Id, first: Subscription, mode: string, priceId: Id, price: Price,
                      d: Data, at: Time, id1: Id, id2: Id)
    requires d.periodStart.Some? && d.periodEnd.Some?
    requires first.id == if t in subs then subs[t].id else id1
    ensures AcceptedRow(subs[t := first], t, mode, Active, priceId, price, d, at, id2)
         == AcceptedRow(subs, t, mode, Active, priceId, price, d, at, id1)
  {
  }

  lemma AcceptedParts(db: Tables, mode: string, status: Status, owner: Owner, d: Data, at: Time, freshId: Id)
    requires owner.price in db.prices
    ensures var t, price := owner.tenant, db.prices[owner.price];
            var sub := AcceptedRow(db.subs, t, mode, status, owner.price, price, d, at, freshId);
            var r := Accepted(db, mode, status, owner, d, at, freshId);
            && r.subs == db.subs[t := sub]
            && r.quotas == db.quotas[t := Quota(price.planId, FromSubscription, Some(sub.id))]
            && r.checkouts == (if d.externalId != "" then Completed(db.checkouts, d.externalId) else db.checkouts)
            && r == db.(subs := r.subs, quotas := r.quotas, checkouts := r.checkouts)
  {
  }

  lemma Overwritten<V>(m: map<Id, V>, t: Id, first: V, second: V)
    ensures m[t := first][t := second] == m[t := second]
  {
  }

  /** A strictly newer activation with both bounds overwrites all that the polled order wrote. */
  lemma NewerOverwrites(db: Tables, env: string, s: Status, owner: Owner, ds: Data, c: Time, mode: string, d: Data,
      at: Time, id1: Id, id2: Id)
    requires owner.price in db.prices && ds.orderId == d.orderId && ds.externalId != ""
    requires d.periodStart.Some? && d.periodEnd.Some?
    ensures Accepted(Accepted(db, env, s, owner, ds, c, id1), mode, Active, owner, d, at, id2)
         == MarkCompleted(Accepted(db, mode, Active, owner, d, at, id1), ds.externalId)
  {
    var t, price := owner.tenant, db.prices[owner.price];
    var first := AcceptedRow(db.subs, t, env, s, owner.price, price, ds, c, id1);
    var sub := AcceptedRow(db.subs, t, mode, Active, owner.price, price, d, at, id1);
    var polled := Accepted(db, env, s, owner, ds, c, id1);
    AcceptedParts(db, env, s, owner, ds, c, id1);
    AcceptedParts(polled, mode, Active, owner, d, at, id2);
    AcceptedParts(db, mode, Active, owner, d, at, id1);
    RowOverwrites(db.subs, t, first, mode, owner.price, price, d, at, id1, id2);
    Overwritten(db.subs, t, first, sub);
    Overwritten(db.quotas, t, Quota(price.planId, FromSubscription, Some(first.id)),
                Quota(price.planId, FromSubscription, Some(sub.id)));
    MarksCommute(db.checkouts, ds.externalId, d.externalId);
  }

  /** An order that polling books shows up with its own status, time and bounds, its plan and its checkout. */
  lemma PolledOrderIsBooked(db: Tables, env: string, tenant: Id, e: Id, order: Order, now: Time, freshId: Id,
      owner: Owner)
    requires Inv(db) && Live(order.status) && ResolveOwner(db, SyncData(tenant, e, order)) == Ok(owner)
    requires !Ignored(Current(db, owner.tenant), OnActivated, order.id, OrderTime(order, now))
    requires SyncOrder(db, env, tenant, e, order, now, freshId).Ok?
    ensures var t, after := owner.tenant, SyncOrder(db, env, tenant, e, order, now, freshId).value;
            && OnlyTouches(db, after, t) && t in after.subs && t in after.quotas
            && var row := after.subs[t];
               && row.orderId == order.id && row.status == order.status && row.mode == env
               && row.lastEventAt == Some(if order.createdAt.Some? then order.createdAt.value else now)
               && (order.periodStart.Some? ==> row.periodStart == order.periodStart)
               && (order.periodEnd.Some? ==> row.periodEnd == order.periodEnd)
               && row.priceId == owner.price && owner.price in db.prices && row.planId == db.prices[owner.price].planId
               && after.quotas[t] == Quota(row.planId, FromSubscription, Some(row.id))
               && (e in db.checkouts && db.checkouts[e].status.CheckoutPending? ==>
                     after.checkouts[e].status.CheckoutCompleted?)
  {
    SyncOrderKeeps(db, env, tenant, e, order, now, freshId);
    ApplyStatusShape(db, OnActivated, env, order.status, owner, SyncData(tenant, e, order), OrderTime(order, now), freshId);
  }

  /** The polled order comes first and is accepted. */
  lemma SyncFirst(db: Tables, env: string, tenant: Id, e: Id, order: Order, ev: Envelope,
                  nowS: Time, nowW: Time, id1: Id, id2: Id, owner: Owner)
    requires Race(db, env, tenant, e, order, ev, nowS, id1, id2, owner)
    requires !Ignored(Current(db, owner.tenant), OnActivated, order.id, OrderTime(order, nowS))
    requires owner.price != "" && owner.price in db.prices && owner.tenant in db.quotas
    ensures AfterWebhook(AfterSync(db, env, tenant, e, order, nowS, id1), ev, nowW, id2)
         == MarkCompleted(Accepted(db, ev.mode, Active, owner, ev.data.value, ev.at.value, id1), e)
  {
    var ds, c := SyncData(tenant, e, order), OrderTime(order, nowS);
    SyncIsActivation(db, env, tenant, e, order, nowS, id1, owner);
    AcceptedKeeps(db, env, order.status, owner, ds, c, id1, ev.data.value);
    WebhookIsActivation(Accepted(db, env, order.status, owner, ds, c, id1), ev, nowW, id2, owner);
    NewerOverwrites(db, env, order.status, owner, ds, c, ev.mode, ev.data.value, ev.at.value, id1, id2);
  }

  /** The webhook comes first: afterwards the polled order is old news. */
  lemma WebhookFirst(db: Tables, env: string, tenant: Id, e: Id, order: Order, ev: Envelope,
                     nowS: Time, nowW: Time, id1: Id, id2: Id, owner: Owner)
    requires Race(db, env, tenant, e, order, ev, nowS, id1, id2, owner)
    requires !Ignored(Current(db, owner.tenant), OnActivated, order.id, ev.at.value)
    requires owner.price != "" && owner.price in db.prices && owner.tenant in db.quotas
    ensures AfterSync(AfterWebhook(db, ev, nowW, id1), env, tenant, e, order, nowS, id2)
         == MarkCompleted(Accepted(db, ev.mode, Active, owner, ev.data.value, ev.at.value, id1), e)
  {
    WebhookIsActivation(db, ev, nowW, id1, owner);
    AcceptedKeeps(db, ev.mode, Active, owner, ev.data.value, ev.at.value, id1, SyncData(tenant, e, order));
    StaleSync(Accepted(db, ev.mode, Active, owner, ev.data.value, ev.at.value, id1), env, tenant, e, order, nowS, id2, owner);
  }

  /** One order, one owner; the activation is strictly newer and carries both period bounds. */
  ghost predicate Race(db: Tables, env: string, tenant: Id, e: Id, order: Order, ev: Envelope,
                       nowS: Time, id1: Id, id2: Id, owner: Owner) {
    && Inv(db) && Unused(db, id1) && Unused(db, id2) && id1 != id2
    && e != "" && order.id != "" && Live(order.status)
    && ev.kind.OnActivated? && ev.at.Some? && OrderTime(order, nowS) < ev.at.value
    && ev.data.Some? && ev.data.value.orderId == order.id
    && ev.data.value.periodStart.Some? && ev.data.value.periodEnd.Some?
    && ResolveOwner(db, SyncData(tenant, e, order)) == Ok(owner) && ResolveOwner(db, ev.data.value) == Ok(owner)
  }

  /**
   * Polling an order and its strictly newer activation end in the same tables
   * whichever runs first; the first to run draws id1, the second id2.
   */
  lemma SyncAndActivationCommute(db: Tables, env: string, tenant: Id, e: Id, order: Order, ev: Envelope,
                                 nowS: Time, nowW: Time, id1: Id, id2: Id, owner: Owner)
    requires Race(db, env, tenant, e, order, ev, nowS, id1, id2, owner)
    ensures AfterWebhook(AfterSync(db, env, tenant, e, order, nowS, id1), ev, nowW, id2)
         == AfterSync(AfterWebhook(db, ev, nowW, id1), env, tenant, e, order, nowS, id2)
  {
    var t, d, c := owner.tenant, ev.data.value, OrderTime(order, nowS);
    var ds := SyncData(tenant, e, order);
    var grants := owner.price != "" && owner.price in db.prices && owner.tenant in db.quotas;
    if Ignored(Current(db, t), OnActivated, order.id, c) {
      StaleSync(db, env, tenant, e, order, nowS, id1, owner);
      MarkKeepsOwner(db, e, d);
      WebhookIsActivation(MarkCompleted(db, e), ev, nowW, id2, owner);
      WebhookIsActivation(db, ev, nowW, id1, owner);
      if Ignored(Current(db, t), OnActivated, order.id, ev.at.value) || !grants {
        StaleSync(db, env, tenant, e, order, nowS, id2, owner);
      } else {
        WebhookFirst(db, env, tenant, e, order, ev, nowS, nowW, id1, id2, owner);
        MarkThenActivate(db, e, ev.mode, Active, owner, d, ev.at.value, id2);
      }
    } else if grants {
      SyncFirst(db, env, tenant, e, order, ev, nowS, nowW, id1, id2, owner);
      WebhookFirst(db, env, tenant, e, order, ev, nowS, nowW, id1, id2, owner);
    } else {
      SyncIsActivation(db, env, tenant, e, order, nowS, id1, owner);
      SyncIsActivation(db, env, tenant, e, order, nowS, id2, owner);
      WebhookIsActivation(db, ev, nowW, id1, owner);
      WebhookIsActivation(db, ev, nowW, id2, owner);
    }
  }
}

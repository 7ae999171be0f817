/**
 * At-least-once delivery with the effect of one: when applying an event twice is applying it once, and what
 * a delivery cut short anywhere, or failed, leaves for the next one to do.
 */
module BillingDelivery {
  import opened Common
  import opened BillingModel
  import opened BillingRuns

  ghost predicate Unused(db: Tables, id: Id) {
    forall u :: u in db.subs ==> db.subs[u].id != id
  }

  lemma FirstNonEmptyAppend(a: seq<string>, x: string)
    ensures FirstNonEmpty(a + [x]) == if FirstNonEmpty(a) != "" then FirstNonEmpty(a) else x
  {
    if a != [] {
      assert (a + [x])[1..] == a[1..] + [x];
      FirstNonEmptyAppend(a[1..], x);
    }
  }

  /** Once t holds the order at the resolved price, the event keeps resolving the same way. */
  lemma ResolveStable(db: Tables, db1: Tables, d: Data)
    requires ResolveOwner(db, d).Ok? && OrderUnique(db.subs) && "" !in db.subs
    requires OrderUnique(db1.subs) && db1.tenants == db.tenants && CheckoutsKept(db.checkouts, db1.checkouts)
    requires var o := ResolveOwner(db, d).value;
             o.tenant in db1.subs && db1.subs[o.tenant].orderId == d.orderId && db1.subs[o.tenant].priceId == o.price
             && o.price != ""
    ensures ResolveOwner(db1, d) == ResolveOwner(db, d)
  {
    var o := ResolveOwner(db, d).value;
    var h, h1 := Holder(db.subs, d.orderId), Holder(db1.subs, d.orderId);
    assert h1 == Some(o.tenant);
    if h.Some? { ResolveRespectsHolder(db, d, h.value); }
    var own, prices := TenantClaims(db, d, None), PriceClaims(db, d, None);
    assert own == TenantClaims(db1, d, None) && prices == PriceClaims(db1, d, None);
    var claims, claims1 := TenantClaims(db, d, h), TenantClaims(db1, d, h1);
    assert claims1 == own + [o.tenant];
    assert PriceClaims(db1, d, h1) == prices + [o.price];
    assert h.Some? ==> PriceClaims(db, d, h) == prices + [db.subs[h.value].priceId];
    assert h.None? ==> PriceClaims(db, d, h) == prices;
    assert forall c :: c in own ==> c in claims;
    assert claims1[|own|] == o.tenant;
    assert Names(claims1, o.tenant);
    FirstNonEmptyAppend(prices, o.price);
    if h.Some? { FirstNonEmptyAppend(prices, db.subs[h.value].priceId); }
  }

  // ---------- applying twice ----------

  /** The tables already say what the event would write. */
  ghost predicate Shown(db: Tables, kind: EventType, mode: string, status: Status, owner: Owner, d: Data, at: Time) {
    && owner.tenant in db.subs && owner.price != "" && owner.price in db.prices
    && var row, price := db.subs[owner.tenant], db.prices[owner.price];
       && row == RowToBook(Some(row), mode, status, owner.price, price, d, at, row.id)
       && (Starts(kind) ==>
             owner.tenant in db.quotas
             && db.quotas[owner.tenant] == Quota(price.planId, FromSubscription, Some(row.id)))
       && (kind.OnActivated? && d.externalId != "" && d.externalId in db.checkouts ==>
             !db.checkouts[d.externalId].status.CheckoutPending?)
  }

  lemma ShownHasNoEffect(db: Tables, kind: EventType, mode: string, status: Status, owner: Owner, d: Data, at: Time,
      freshId: Id)
    requires OrderUnique(db.subs) && Shown(db, kind, mode, status, owner, d, at)
    ensures ApplyStatus(db, kind, mode, status, owner, d, at, freshId) == Ok(db)
  {
    var t := owner.tenant;
    var row := db.subs[t];
    assert row.orderId == d.orderId && row.lastEventAt == Some(at);
    assert db.subs[t := row] == db.subs;
    assert Upsert(db, t, row) == Ok(db) by {
      assert forall u :: u in db.subs && u != t ==> db.subs[u].orderId != d.orderId;
    }
    if Starts(kind) {
      assert db.quotas[t := db.quotas[t]] == db.quotas;
      assert GrantQuota(db, t, db.prices[owner.price].planId, row.id) == Ok(db);
    }
  }

  lemma NoEffectIsShown(db: Tables, kind: EventType, mode: string, status: Status, owner: Owner, d: Data, at: Time,
      freshId: Id)
    requires !Ignored(Current(db, owner.tenant), kind, d.orderId, at)
    requires ApplyStatus(db, kind, mode, status, owner, d, at, freshId) == Ok(db)
    ensures Shown(db, kind, mode, status, owner, d, at)
  {
    ApplyStatusShape(db, kind, mode, status, owner, d, at, freshId);
    var t := owner.tenant;
    var row, price := db.subs[t], db.prices[owner.price];
    var written := RowToBook(Current(db, t), mode, status, owner.price, price, d, at, freshId);
    assert db.subs == db.subs[t := written];
    assert row == written;
    var grant := Quota(price.planId, FromSubscription, Some(row.id));
    assert Starts(kind) ==> db.quotas == db.quotas[t := grant];
  }

  /** A status event changes nothing exactly when the guards ignore it or the tables already show it. */
  lemma NoEffectExactly(db: Tables, kind: EventType, mode: string, status: Status, owner: Owner, d: Data, at: Time,
      freshId: Id)
    requires OrderUnique(db.subs)
    ensures ApplyStatus(db, kind, mode, status, owner, d, at, freshId) == Ok(db) <==>
              Ignored(Current(db, owner.tenant), kind, d.orderId, at) || Shown(db, kind, mode, status, owner, d, at)
  {
    if Shown(db, kind, mode, status, owner, d, at) {
      ShownHasNoEffect(db, kind, mode, status, owner, d, at, freshId);
    } else if !Ignored(Current(db, owner.tenant), kind, d.orderId, at) {
      if ApplyStatus(db, kind, mode, status, owner, d, at, freshId) == Ok(db) {
        NoEffectIsShown(db, kind, mode, status, owner, d, at, freshId);
      }
    }
  }

  lemma AcceptedRowsAreShown(db: Tables, kind: EventType, mode: string, status: Status, owner: Owner, d: Data, at: Time,
      id1: Id)
    requires ApplyStatus(db, kind, mode, status, owner, d, at, id1).Ok?
    requires !Ignored(Current(db, owner.tenant), kind, d.orderId, at)
    ensures Shown(ApplyStatus(db, kind, mode, status, owner, d, at, id1).value, kind, mode, status, owner, d, at)
  {
    ApplyStatusShape(db, kind, mode, status, owner, d, at, id1);
  }

  /** An accepted status event leaves tables that show it and that name the same owner. */
  lemma AcceptedIsShown(db: Tables, kind: EventType, mode: string, status: Status, d: Data, at: Time, id1: Id)
    requires Inv(db) && ResolveOwner(db, d).Ok? && !status.Canceled?
    requires ApplyStatus(db, kind, mode, status, ResolveOwner(db, d).value, d, at, id1).Ok?
    requires !Ignored(Current(db, ResolveOwner(db, d).value.tenant), kind, d.orderId, at)
    ensures var owner := ResolveOwner(db, d).value;
            var db1 := ApplyStatus(db, kind, mode, status, owner, d, at, id1).value;
            && Inv(db1) && Shown(db1, kind, mode, status, owner, d, at)
            && ResolveOwner(db1, d) == Ok(owner)
  {
    var owner := ResolveOwner(db, d).value;
    AcceptedRowsAreShown(db, kind, mode, status, owner, d, at, id1);
    ApplyStatusKeeps(db, kind, mode, status, d, at, id1);
    ShownKeepsOwner(db, ApplyStatus(db, kind, mode, status, owner, d, at, id1).value, kind, mode, status, d, at);
  }

  lemma ShownKeepsOwner(db: Tables, db1: Tables, kind: EventType, mode: string, status: Status, d: Data, at: Time)
    requires Inv(db) && Inv(db1) && ResolveOwner(db, d).Ok? && OnlyTouches(db, db1, ResolveOwner(db, d).value.tenant)
    requires Shown(db1, kind, mode, status, ResolveOwner(db, d).value, d, at)
    ensures ResolveOwner(db1, d) == ResolveOwner(db, d)
  {
    ResolveStable(db, db1, d);
  }

  lemma ShownTells(db: Tables, kind: EventType, mode: string, status: Status, owner: Owner, d: Data, at: Time)
    requires Shown(db, kind, mode, status, owner, d, at)
    ensures db.subs[owner.tenant].orderId == d.orderId && db.subs[owner.tenant].lastEventAt == Some(at)
  {
  }

  lemma ApplyCanceledTwice(db: Tables, t: Id, d: Data, at: Time, at2: Time)
    requires ApplyCanceled(db, t, d, at).Ok?
    ensures ApplyCanceled(ApplyCanceled(db, t, d, at).value, t, d, at2) == ApplyCanceled(db, t, d, at)
  {
    ApplyCanceledShape(db, t, d, at);
  }

  lemma CanceledKeepsOwner(db: Tables, d: Data, at: Time)
    requires Inv(db) && ResolveOwner(db, d).Ok?
    requires ApplyCanceled(db, ResolveOwner(db, d).value.tenant, d, at).Ok?
    ensures ResolveOwner(ApplyCanceled(db, ResolveOwner(db, d).value.tenant, d, at).value, d) == ResolveOwner(db, d)
  {
    var t := ResolveOwner(db, d).value.tenant;
    var db1 := ApplyCanceled(db, t, d, at).value;
    ApplyCanceledShape(db, t, d, at);
    if db1 != db {
      ApplyCanceledKeeps(db, t, d, at);
      var h, h1 := Holder(db.subs, d.orderId), Holder(db1.subs, d.orderId);
      assert h == Some(t) && h1 == Some(t);
      assert TenantClaims(db1, d, h1) == TenantClaims(db, d, h);
      assert PriceClaims(db1, d, h1) == PriceClaims(db, d, h);
    }
  }

  /** Whose event it is, as the tables say. */
  ghost function OwnerOf(db: Tables, ev: Envelope): Owner
    requires ev.data.Some? && ResolveOwner(db, ev.data.value).Ok?
  {
    ResolveOwner(db, ev.data.value).value
  }

  /**
   * When a second application does nothing: an accepted event must keep its time, or the clock standing in
   * for it must not move on; one that was ignored must be ignored again, or find its own effect.
   */
  ghost predicate RepeatIsHarmless(db: Tables, ev: Envelope, now1: Time, now2: Time)
    requires StatusOf(ev.kind).Some? ==> ev.data.Some? && ResolveOwner(db, ev.data.value).Ok?
  {
    StatusOf(ev.kind).Some? ==>
      var owner, d := OwnerOf(db, ev), ev.data.value;
      if Ignored(Current(db, owner.tenant), ev.kind, d.orderId, EventTime(ev, now1)) then
        || Ignored(Current(db, owner.tenant), ev.kind, d.orderId, EventTime(ev, now2))
        || Shown(db, ev.kind, ev.mode, StatusOf(ev.kind).value, owner, d, EventTime(ev, now2))
      else
        ev.at.Some? || now2 <= now1
  }

  /** Tables that show the event at one time: what it does at another. */
  lemma ShownThenAgain(db: Tables, kind: EventType, mode: string, status: Status, owner: Owner, d: Data, at1: Time,
      at2: Time, id2: Id)
    requires OrderUnique(db.subs) && Shown(db, kind, mode, status, owner, d, at1)
    ensures ApplyStatus(db, kind, mode, status, owner, d, at2, id2) == Ok(db) <==> at2 <= at1
  {
    ShownTells(db, kind, mode, status, owner, d, at1);
    NoEffectExactly(db, kind, mode, status, owner, d, at2, id2);
    if Shown(db, kind, mode, status, owner, d, at2) {
      ShownTells(db, kind, mode, status, owner, d, at2);
    }
  }

  lemma AcceptedTwice(db: Tables, ev: Envelope, now1: Time, id1: Id, now2: Time, id2: Id)
    requires Inv(db) && StatusOf(ev.kind).Some? && ApplyWebhook(db, ev, now1, id1).Ok?
    requires !Ignored(Current(db, OwnerOf(db, ev).tenant), ev.kind, ev.data.value.orderId, EventTime(ev, now1))
    ensures ApplyWebhook(ApplyWebhook(db, ev, now1, id1).value, ev, now2, id2) == ApplyWebhook(db, ev, now1, id1)
        <==> ev.at.Some? || now2 <= now1
  {
    var d, owner, status := ev.data.value, OwnerOf(db, ev), StatusOf(ev.kind).value;
    var at1, at2 := EventTime(ev, now1), EventTime(ev, now2);
    var db1 := ApplyWebhook(db, ev, now1, id1).value;
    AcceptedIsShown(db, ev.kind, ev.mode, status, d, at1, id1);
    ShownThenAgain(db1, ev.kind, ev.mode, status, owner, d, at1, at2, id2);
  }

  /** Applying a committed event once more changes nothing exactly when the repetition is harmless. */
  lemma AppliedTwice(db: Tables, ev: Envelope, now1: Time, id1: Id, now2: Time, id2: Id)
    requires Inv(db) && ApplyWebhook(db, ev, now1, id1).Ok?
    ensures ApplyWebhook(ApplyWebhook(db, ev, now1, id1).value, ev, now2, id2) == ApplyWebhook(db, ev, now1, id1)
        <==> RepeatIsHarmless(db, ev, now1, now2)
  {
    if StatusOf(ev.kind).Some? {
      var d, owner := ev.data.value, OwnerOf(db, ev);
      if Ignored(Current(db, owner.tenant), ev.kind, d.orderId, EventTime(ev, now1)) {
        NoEffectExactly(db, ev.kind, ev.mode, StatusOf(ev.kind).value, owner, d, EventTime(ev, now2), id2);
      } else {
        AcceptedTwice(db, ev, now1, id1, now2, id2);
      }
    } else if ev.kind.OnCanceled? {
      var d, t := ev.data.value, OwnerOf(db, ev).tenant;
      CanceledKeepsOwner(db, d, EventTime(ev, now1));
      ApplyCanceledTwice(db, t, d, EventTime(ev, now1), EventTime(ev, now2));
    }
  }

  // ---------- the table of event keys ----------

  /** The same answer, with other event keys on record. */
  ghost predicate SameButEvents(r: Result<Tables, Error>, s: Result<Tables, Error>, events: map<EventKey, EventStatus>) {
    if r.Ok? then s == Ok(r.value.(events := events)) else s == r
  }

  lemma BookIgnoresEvents(db: Tables, e: map<EventKey, EventStatus>, t: Id, sub: Subscription, grants: bool,
      completes: Id)
    ensures SameButEvents(Book(db, t, sub, grants, completes), Book(db.(events := e), t, sub, grants, completes), e)
    ensures Book(db, t, sub, grants, completes).Ok? ==> Book(db, t, sub, grants, completes).value.events == db.events
  {
    var f := db.(events := e);
    assert SameButEvents(Upsert(db, t, sub), Upsert(f, t, sub), e);
    if Upsert(db, t, sub).Ok? {
      var db1, f1 := Upsert(db, t, sub).value, Upsert(f, t, sub).value;
      assert db1.events == db.events && f1 == db1.(events := e);
      assert SameButEvents(GrantQuota(db1, t, sub.planId, sub.id), GrantQuota(f1, t, sub.planId, sub.id), e);
    }
  }

  lemma AcceptedIsBooked(db: Tables, kind: EventType, mode: string, status: Status, owner: Owner, d: Data, at: Time,
      freshId: Id)
    requires !Ignored(Current(db, owner.tenant), kind, d.orderId, at) && owner.price != "" && owner.price in db.prices
    ensures var current := Current(db, owner.tenant);
            var sub := RowToBook(current, mode, status, owner.price, db.prices[owner.price], d, at, freshId);
            var grants := Starts(kind) || current.None? || current.value.orderId != d.orderId;
            ApplyStatus(db, kind, mode, status, owner, d, at, freshId)
            == Book(db, owner.tenant, sub, grants, if kind.OnActivated? then d.externalId else "")
  {
  }

  lemma StatusIgnoresEvents(db: Tables, e: map<EventKey, EventStatus>, kind: EventType, mode: string, status: Status,
      owner: Owner, d: Data, at: Time, freshId: Id)
    ensures SameButEvents(ApplyStatus(db, kind, mode, status, owner, d, at, freshId),
                          ApplyStatus(db.(events := e), kind, mode, status, owner, d, at, freshId), e)
    ensures var r := ApplyStatus(db, kind, mode, status, owner, d, at, freshId); r.Ok? ==> r.value.events == db.events
  {
    var current := Current(db, owner.tenant);
    assert Current(db.(events := e), owner.tenant) == current;
    if !Ignored(current, kind, d.orderId, at) {
      if owner.price != "" && owner.price in db.prices {
        AcceptedIsBooked(db, kind, mode, status, owner, d, at, freshId);
        AcceptedIsBooked(db.(events := e), kind, mode, status, owner, d, at, freshId);
        var sub := RowToBook(current, mode, status, owner.price, db.prices[owner.price], d, at, freshId);
        var grants := Starts(kind) || current.None? || current.value.orderId != d.orderId;
        BookIgnoresEvents(db, e, owner.tenant, sub, grants, if kind.OnActivated? then d.externalId else "");
      }
    }
  }

  lemma CanceledIgnoresEvents(db: Tables, e: map<EventKey, EventStatus>, t: Id, d: Data, at: Time)
    ensures SameButEvents(ApplyCanceled(db, t, d, at), ApplyCanceled(db.(events := e), t, d, at), e)
    ensures var r := ApplyCanceled(db, t, d, at); r.Ok? ==> r.value.events == db.events
  {
  }

  /** A transaction neither reads nor writes the event keys. */
  lemma WebhookIgnoresEvents(db: Tables, e: map<EventKey, EventStatus>, ev: Envelope, now: Time, freshId: Id)
    ensures SameButEvents(ApplyWebhook(db, ev, now, freshId), ApplyWebhook(db.(events := e), ev, now, freshId), e)
    ensures ApplyWebhook(db, ev, now, freshId).Ok? ==> ApplyWebhook(db, ev, now, freshId).value.events == db.events
  {
    if (StatusOf(ev.kind).Some? || ev.kind.OnCanceled?) && ev.data.Some? && ev.data.value.orderId != "" {
      var d := ev.data.value;
      EventsDoNotMatter(db, e, d);
      if ResolveOwner(db, d).Ok? {
        OwnedIgnoresEvents(db, e, ev, now, freshId);
      }
    }
  }

  lemma OwnedIgnoresEvents(db: Tables, e: map<EventKey, EventStatus>, ev: Envelope, now: Time, freshId: Id)
    requires (StatusOf(ev.kind).Some? || ev.kind.OnCanceled?) && ev.data.Some? && ev.data.value.orderId != ""
    requires ResolveOwner(db, ev.data.value).Ok?
    requires ResolveOwner(db.(events := e), ev.data.value) == ResolveOwner(db, ev.data.value)
    ensures SameButEvents(ApplyWebhook(db, ev, now, freshId), ApplyWebhook(db.(events := e), ev, now, freshId), e)
    ensures ApplyWebhook(db, ev, now, freshId).Ok? ==> ApplyWebhook(db, ev, now, freshId).value.events == db.events
  {
    var d, owner, at := ev.data.value, ResolveOwner(db, ev.data.value).value, EventTime(ev, now);
    if ev.kind.OnCanceled? {
      CanceledIgnoresEvents(db, e, owner.tenant, d, at);
      assert ApplyWebhook(db, ev, now, freshId) == ApplyCanceled(db, owner.tenant, d, at);
      assert ApplyWebhook(db.(events := e), ev, now, freshId) == ApplyCanceled(db.(events := e), owner.tenant, d, at);
    } else {
      var status := StatusOf(ev.kind).value;
      StatusIgnoresEvents(db, e, ev.kind, ev.mode, status, owner, d, at, freshId);
      assert ApplyWebhook(db, ev, now, freshId) == ApplyStatus(db, ev.kind, ev.mode, status, owner, d, at, freshId);
      assert ApplyWebhook(db.(events := e), ev, now, freshId)
          == ApplyStatus(db.(events := e), ev.kind, ev.mode, status, owner, d, at, freshId);
    }
  }

  lemma SyncIgnoresEvents(db: Tables, e: map<EventKey, EventStatus>, a: Action)
    requires a.Sync?
    ensures Step(db.(events := e), a) == Step(db, a).(events := e) && Step(db, a).events == db.events
  {
    if a.lookup.Found? && Live(a.lookup.order.status) {
      var order := a.lookup.order;
      var d := SyncData(a.tenant, a.externalId, order);
      EventsDoNotMatter(db, e, d);
      if ResolveOwner(db, d).Ok? {
        StatusIgnoresEvents(db, e, OnActivated, a.env, order.status, ResolveOwner(db, d).value, d, OrderTime(order, a.now), a.freshId);
      }
    }
  }

  lemma StepIgnoresEvents(db: Tables, e: map<EventKey, EventStatus>, a: Action)
    requires !a.Record?
    ensures Step(db.(events := e), a) == Step(db, a).(events := e) && Step(db, a).events == db.events
  {
    if a.Apply? { WebhookIgnoresEvents(db, e, a.ev, a.now, a.freshId); }
    if a.Sync? { SyncIgnoresEvents(db, e, a); }
  }

  // ---------- deliveries ----------

  /** Its transaction committed, whatever became of the mark. */
  ghost predicate Committed(db: Tables, ev: Envelope, now: Time, freshId: Id, faults: Faults) {
    && WellFormed(ev) && !faults.register && !(KeyOf(ev) in db.events && faults.ask)
    && !AlreadyProcessed(db, KeyOf(ev))
    && !faults.transact && ApplyWebhook(db, ev, now, freshId).Ok?
  }

  /** A delivery that did not commit changes the status of its key and nothing else. */
  lemma UncommittedChangesNoRows(db: Tables, ev: Envelope, now: Time, freshId: Id, faults: Faults)
    requires !Committed(db, ev, now, freshId, faults)
    ensures var after := Deliver(db, ev, now, freshId, faults).0;
            && OnlyKeyDiffers(db, after, KeyOf(ev))
            && (AlreadyProcessed(db, KeyOf(ev)) <==> AlreadyProcessed(after, KeyOf(ev)))
  {
    var reg := Register(db, KeyOf(ev));
    if !faults.transact {
      assert reg == db.(events := reg.events);
      WebhookIgnoresEvents(db, reg.events, ev, now, freshId);
    }
  }

  ghost predicate OnlyKeyDiffers(x: Tables, y: Tables, key: EventKey) {
    && y == x.(events := y.events)
    && forall k :: k != key ==> (k in y.events <==> k in x.events) && (k in x.events ==> y.events[k] == x.events[k])
  }

  /** The tables and answer that a transaction's result and the marks before it lead to. */
  ghost function Marked(r: Result<Tables, Error>, db: Tables, key: EventKey): (Tables, Option<Error>) {
    if r.Ok? then (r.value.(events := db.events[key := Processed]), None)
    else (db.(events := db.events[key := Failed]), Some(r.error))
  }

  /** What an undisturbed delivery of an unprocessed key does. */
  lemma DeliverShape(db: Tables, ev: Envelope, now: Time, freshId: Id)
    requires WellFormed(ev) && !AlreadyProcessed(db, KeyOf(ev))
    ensures Deliver(db, ev, now, freshId, UNDISTURBED) == Marked(ApplyWebhook(db, ev, now, freshId), db, KeyOf(ev))
  {
    var key := KeyOf(ev);
    var events := Register(db, key).events;
    assert Register(db, key) == db.(events := events);
    WebhookIgnoresEvents(db, events, ev, now, freshId);
    assert events[key := Processed] == db.events[key := Processed];
    assert events[key := Failed] == db.events[key := Failed];
  }

  lemma MarkedForgetsStatus(r: Result<Tables, Error>, s: Result<Tables, Error>, x: Tables, y: Tables, key: EventKey)
    requires OnlyKeyDiffers(x, y, key) && SameButEvents(r, s, y.events)
    ensures Marked(s, y, key) == Marked(r, x, key)
  {
    assert x.events[key := Processed] == y.events[key := Processed];
    assert x.events[key := Failed] == y.events[key := Failed];
  }

  /** A successful delivery processes its key and no other. */
  lemma DeliverySucceeds(db: Tables, ev: Envelope, now: Time, freshId: Id)
    requires WellFormed(ev) && !AlreadyProcessed(db, KeyOf(ev))
    requires ApplyWebhook(db, ev, now, freshId).Ok?
    ensures var (after, error) := Deliver(db, ev, now, freshId, UNDISTURBED);
            && error.None?
            && after == ApplyWebhook(db, ev, now, freshId).value.(events := after.events)
            && forall k :: AlreadyProcessed(after, k) <==> AlreadyProcessed(db, k) || k == KeyOf(ev)
  {
    DeliverShape(db, ev, now, freshId);
  }

  /** Two tables that differ in the unprocessed key only: an undisturbed delivery makes them the same. */
  lemma DeliverForgetsStatus(x: Tables, y: Tables, ev: Envelope, now: Time, freshId: Id)
    requires OnlyKeyDiffers(x, y, KeyOf(ev)) && WellFormed(ev)
    requires !AlreadyProcessed(x, KeyOf(ev)) && !AlreadyProcessed(y, KeyOf(ev))
    ensures Deliver(y, ev, now, freshId, UNDISTURBED) == Deliver(x, ev, now, freshId, UNDISTURBED)
  {
    DeliverShape(x, ev, now, freshId);
    DeliverShape(y, ev, now, freshId);
    WebhookIgnoresEvents(x, y.events, ev, now, freshId);
    MarkedForgetsStatus(ApplyWebhook(x, ev, now, freshId), ApplyWebhook(y, ev, now, freshId), x, y, KeyOf(ev));
  }

  /**
   * A delivery in which any statement failed, or whose process died anywhere, and then an undisturbed one.
   * If the first did not commit, the second does all of it; if it did, the two together are one undisturbed
   * delivery, unless the mark was lost and the repetition is not harmless.
   */
  lemma InterruptedThenRedelivered(db: Tables, ev: Envelope, faults: Faults, now1: Time, id1: Id, now2: Time, id2: Id)
    requires Inv(db)
    ensures var again := Deliver(Deliver(db, ev, now1, id1, faults).0, ev, now2, id2, UNDISTURBED);
            if !Committed(db, ev, now1, id1, faults) then again == Deliver(db, ev, now2, id2, UNDISTURBED)
            else again == Deliver(db, ev, now1, id1, UNDISTURBED) <==>
                   !faults.mark || RepeatIsHarmless(db, ev, now1, now2)
  {
    var key := KeyOf(ev);
    if !Committed(db, ev, now1, id1, faults) {
      UncommittedChangesNoRows(db, ev, now1, id1, faults);
      if WellFormed(ev) && !AlreadyProcessed(db, key) {
        DeliverForgetsStatus(db, Deliver(db, ev, now1, id1, faults).0, ev, now2, id2);
      }
    } else if faults.mark {
      UnmarkedThenRedelivered(db, ev, faults, now1, id1, now2, id2);
    } else {
      DeliverySucceeds(db, ev, now1, id1);
    }
  }

  lemma UnmarkedThenRedelivered(db: Tables, ev: Envelope, faults: Faults, now1: Time, id1: Id, now2: Time, id2: Id)
    requires Inv(db) && Committed(db, ev, now1, id1, faults) && faults.mark
    ensures var again := Deliver(Deliver(db, ev, now1, id1, faults).0, ev, now2, id2, UNDISTURBED);
            again == Deliver(db, ev, now1, id1, UNDISTURBED) <==> RepeatIsHarmless(db, ev, now1, now2)
  {
    var key := KeyOf(ev);
    var reg := Register(db, key);
    var once := ApplyWebhook(db, ev, now1, id1);
    var applied := once.value.(events := reg.events);
    WebhookIgnoresEvents(db, reg.events, ev, now1, id1);
    assert reg == db.(events := reg.events);
    assert Deliver(db, ev, now1, id1, faults).0 == applied;
    DeliverShape(db, ev, now1, id1);
    DeliverShape(applied, ev, now2, id2);
    WebhookIgnoresEvents(once.value, reg.events, ev, now2, id2);
    WebhookIgnoresEvents(once.value, once.value.events, ev, now2, id2);
    AppliedTwice(db, ev, now1, id1, now2, id2);
    MarksAgree(once.value, ApplyWebhook(once.value, ev, now2, id2), ApplyWebhook(applied, ev, now2, id2), db.events, reg.events, key);
  }

  /** A repetition after a lost mark: the same as the marked delivery exactly when it changed nothing. */
  lemma MarksAgree(once: Tables, twice: Result<Tables, Error>, again: Result<Tables, Error>,
      before: map<EventKey, EventStatus>, reg: map<EventKey, EventStatus>, key: EventKey)
    requires SameButEvents(twice, again, reg) && (twice.Ok? ==> twice.value.events == once.events)
    requires reg == before || reg == before[key := Received]
    ensures Marked(again, once.(events := reg), key) == Marked(Ok(once), once.(events := before), key) <==> twice == Ok(once)
  {
    assert reg[key := Processed] == before[key := Processed];
    assert reg[key := Failed] != before[key := Processed] by {
      assert reg[key := Failed][key] != before[key := Processed][key];
    }
    if twice.Ok? {
      assert twice.value == twice.value.(events := once.events);
      assert once == once.(events := once.events);
      if twice.value.(events := before[key := Processed]) == once.(events := before[key := Processed]) {
        assert twice.value == once;
      }
    }
  }
}

/**
 * Order of arrival: a set of status events ends in the same place in whatever order, and however often,
 * their transactions run, so also when deliveries overlap or a lost mark lets one run again.
 */
module BillingOrder {
  import opened Common
  import opened BillingModel
  import opened BillingRuns
  import opened BillingDelivery

  /** One transaction: the event, the clock and the row id its process drew. */
  datatype Arrival = Arrival(ev: Envelope, now: Time, freshId: Id)

  ghost function ApplyAll(db: Tables, arrivals: seq<Arrival>): Tables
    decreases |arrivals|
  {
    if arrivals == [] then db
    else
      var last := arrivals[|arrivals| - 1];
      var before := ApplyAll(db, arrivals[..|arrivals| - 1]);
      Effect(before, ApplyWebhook(before, last.ev, last.now, last.freshId))
  }

  /** A status event, with a timestamp, that belongs to tenant and price for this order. */
  ghost predicate Fits(db: Tables, ev: Envelope, owner: Owner, order: Id) {
    && StatusOf(ev.kind).Some? && ev.at.Some?
    && ev.data.Some? && ev.data.value.orderId == order
    && ResolveOwner(db, ev.data.value) == Ok(owner)
  }

  /** What the arrivals must be for the order of arrival not to matter. */
  ghost predicate OneOrder(db: Tables, arrivals: seq<Arrival>, owner: Owner, order: Id) {
    && Inv(db) && order != ""
    && owner.tenant !in db.subs && owner.tenant in db.quotas
    && owner.price != "" && owner.price in db.prices
    && (forall i :: 0 <= i < |arrivals| ==>
          Fits(db, arrivals[i].ev, owner, order) && Unused(db, arrivals[i].freshId))
    && (forall i, j :: 0 <= i < |arrivals| && 0 <= j < |arrivals| && arrivals[i].ev.at == arrivals[j].ev.at ==>
          arrivals[i].ev == arrivals[j].ev)
  }

  ghost predicate Among(ev: Envelope, arrivals: seq<Arrival>) {
    exists i :: 0 <= i < |arrivals| && arrivals[i].ev == ev
  }

  ghost predicate NewestOf(ev: Envelope, arrivals: seq<Arrival>) {
    && Among(ev, arrivals) && ev.at.Some?
    && forall i :: 0 <= i < |arrivals| && arrivals[i].ev.at.Some? ==> arrivals[i].ev.at.value <= ev.at.value
  }

  /** The row is the one this event alone would write, up to the row id and inherited period bounds. */
  ghost predicate RowShows(row: Subscription, ev: Envelope, priceId: Id, price: Price)
    requires ev.data.Some? && ev.at.Some? && StatusOf(ev.kind).Some?
  {
    var d := ev.data.value;
    && row.lastEventAt == ev.at
    && (row.status.PastDue? <==> ev.kind.OnPastDue?)
    && (row.status.Canceling? <==> ev.kind.OnCanceling?)
    && (row.status.Active? <==> !ev.kind.OnPastDue? && !ev.kind.OnCanceling?)
    && row.cancelAtPeriodEnd == ev.kind.OnCanceling?
    && row.orderId == d.orderId && row.mode == ev.mode
    && row.priceId == priceId && row.planId == price.planId && row.productId == price.productId
    && row.currency == (if d.currency != "" then d.currency else price.currency)
    && row.amount == (if d.planTotal != "" then d.planTotal else if d.amount != "" then d.amount else price.amount)
    && (d.periodStart.Some? ==> row.periodStart == d.periodStart)
    && (d.periodEnd.Some? ==> row.periodEnd == d.periodEnd)
  }

  /** The tenant's row and quota are what the newest event says, and no other tenant's rows changed. */
  ghost predicate Settled(db: Tables, after: Tables, owner: Owner, newest: Envelope)
    requires newest.data.Some? && newest.at.Some? && StatusOf(newest.kind).Some? && owner.price in db.prices
  {
    var t := owner.tenant;
    && Inv(after) && OnlyTouches(db, after, t)
    && t in after.subs && RowShows(after.subs[t], newest, owner.price, db.prices[owner.price])
    && t in after.quotas
    && after.quotas[t] == Quota(db.prices[owner.price].planId, FromSubscription, Some(after.subs[t].id))
  }

  // ---------- the induction ----------

  lemma Accepts(db: Tables, kind: EventType, mode: string, status: Status, owner: Owner, d: Data, at: Time, freshId: Id)
    requires owner.price != "" && owner.price in db.prices && owner.tenant in db.quotas
    requires forall u :: u in db.subs && u != owner.tenant ==> db.subs[u].orderId != d.orderId && db.subs[u].id != freshId
    ensures ApplyStatus(db, kind, mode, status, owner, d, at, freshId).Ok?
  {
  }

  lemma NoOtherHolder(db: Tables, d: Data, owner: Owner)
    requires Inv(db) && ResolveOwner(db, d) == Ok(owner)
    ensures forall u :: u in db.subs && u != owner.tenant ==> db.subs[u].orderId != d.orderId
  {
    forall u | u in db.subs && db.subs[u].orderId == d.orderId ensures u == owner.tenant {
      ResolveRespectsHolder(db, d, u);
    }
  }

  lemma ApplyIsStatus(db: Tables, ev: Envelope, now: Time, freshId: Id, owner: Owner)
    requires StatusOf(ev.kind).Some? && ev.at.Some? && ev.data.Some? && ev.data.value.orderId != ""
    requires ResolveOwner(db, ev.data.value) == Ok(owner)
    ensures ApplyWebhook(db, ev, now, freshId)
         == ApplyStatus(db, ev.kind, ev.mode, StatusOf(ev.kind).value, owner, ev.data.value, ev.at.value, freshId)
  {
  }

  lemma FirstOf(a: string, b: string, c: string)
    ensures FirstNonEmpty([a, b]) == if a != "" then a else b
    ensures FirstNonEmpty([a, b, c]) == if a != "" then a else if b != "" then b else c
  {
    assert [a, b, c][1..] == [b, c] && [b, c][1..] == [c] && [a, b][1..] == [b];
    assert [c][1..] == [] && [b][1..] == [];
    assert FirstNonEmpty([c]) == c && FirstNonEmpty([b]) == b;
    assert FirstNonEmpty([b, c]) == if b != "" then b else c;
  }

  lemma RowIsShown(ev: Envelope, priceId: Id, price: Price, subs: map<Id, Subscription>, t: Id, freshId: Id)
    requires ev.data.Some? && ev.at.Some? && StatusOf(ev.kind).Some?
    ensures var row := RowFor(ev.mode, StatusOf(ev.kind).value, priceId, price, ev.data.value, ev.at.value,
                              if t in subs then subs[t].id else freshId);
            RowShows(row, ev, priceId, price) && (t in subs ==> RowShows(KeepPeriods(row, subs[t]), ev, priceId, price))
  {
    FirstOf(ev.data.value.currency, price.currency, "");
    FirstOf(ev.data.value.planTotal, ev.data.value.amount, price.amount);
  }

  lemma TouchesCompose(a: Tables, b: Tables, c: Tables, t: Id)
    requires OnlyTouches(a, b, t) && OnlyTouches(b, c, t)
    ensures OnlyTouches(a, c, t)
  {
  }

  /** An accepted event of the order makes the tables show it. */
  lemma AcceptOne(db0: Tables, db: Tables, ev: Envelope, freshId: Id, owner: Owner)
    requires Inv(db) && OnlyTouches(db0, db, owner.tenant) && Unused(db0, freshId)
    requires ev.data.Some? && ev.at.Some? && StatusOf(ev.kind).Some?
    requires ResolveOwner(db, ev.data.value) == Ok(owner)
    requires owner.tenant in db.quotas && owner.price != "" && owner.price in db0.prices
    requires !Ignored(Current(db, owner.tenant), ev.kind, ev.data.value.orderId, ev.at.value)
    requires owner.tenant in db.subs ==>
               db.subs[owner.tenant].orderId == ev.data.value.orderId
               && db.quotas[owner.tenant] == Quota(db0.prices[owner.price].planId, FromSubscription, Some(db.subs[owner.tenant].id))
    ensures var r := ApplyStatus(db, ev.kind, ev.mode, StatusOf(ev.kind).value, owner, ev.data.value, ev.at.value, freshId);
            r.Ok? && Settled(db0, r.value, owner, ev)
  {
    var d := ev.data.value;
    var t := owner.tenant;
    var status := StatusOf(ev.kind).value;
    NoOtherHolder(db, d, owner);
    Accepts(db, ev.kind, ev.mode, status, owner, d, ev.at.value, freshId);
    ApplyStatusKeeps(db, ev.kind, ev.mode, status, d, ev.at.value, freshId);
    var after := ApplyStatus(db, ev.kind, ev.mode, status, owner, d, ev.at.value, freshId).value;
    TouchesCompose(db0, db, after, t);
    AcceptedRows(db, ev, freshId, owner);
  }

  lemma AcceptedRows(db: Tables, ev: Envelope, freshId: Id, owner: Owner)
    requires ev.data.Some? && ev.at.Some? && StatusOf(ev.kind).Some?
    requires ApplyStatus(db, ev.kind, ev.mode, StatusOf(ev.kind).value, owner, ev.data.value, ev.at.value, freshId).Ok?
    requires !Ignored(Current(db, owner.tenant), ev.kind, ev.data.value.orderId, ev.at.value)
    requires owner.tenant in db.quotas && owner.price in db.prices
    requires owner.tenant in db.subs ==>
               db.quotas[owner.tenant] == Quota(db.prices[owner.price].planId, FromSubscription, Some(db.subs[owner.tenant].id))
    ensures var after := ApplyStatus(db, ev.kind, ev.mode, StatusOf(ev.kind).value, owner, ev.data.value, ev.at.value, freshId).value;
            var t := owner.tenant;
            && t in after.subs && t in after.quotas
            && RowShows(after.subs[t], ev, owner.price, db.prices[owner.price])
            && after.quotas[t] == Quota(db.prices[owner.price].planId, FromSubscription, Some(after.subs[t].id))
  {
    ApplyStatusShape(db, ev.kind, ev.mode, StatusOf(ev.kind).value, owner, ev.data.value, ev.at.value, freshId);
    RowIsShown(ev, owner.price, db.prices[owner.price], db.subs, owner.tenant, freshId);
  }

  function Newer(shown: Option<Envelope>, ev: Envelope): Envelope {
    if shown.Some? && shown.value.at.Some? && ev.at.Some? && ev.at.value < shown.value.at.value then shown.value else ev
  }

  /** Applying one more event of the order to tables that show `shown`, or to the untouched tenant. */
  lemma ApplyOne(db0: Tables, db: Tables, ev: Envelope, now: Time, freshId: Id, owner: Owner, order: Id,
      shown: Option<Envelope>)
    requires Inv(db0) && order != "" && Fits(db0, ev, owner, order) && Unused(db0, freshId)
    requires owner.tenant !in db0.subs && owner.tenant in db0.quotas && owner.price != "" && owner.price in db0.prices
    requires shown.None? ==> db == db0
    requires shown.Some? ==> Fits(db0, shown.value, owner, order) && Settled(db0, db, owner, shown.value)
    ensures var r := ApplyWebhook(db, ev, now, freshId);
            r.Ok? && Settled(db0, r.value, owner, Newer(shown, ev))
  {
    var d := ev.data.value;
    if shown.Some? {
      ResolveStable(db0, db, d);
    }
    ApplyIsStatus(db, ev, now, freshId, owner);
    if !Ignored(Current(db, owner.tenant), ev.kind, order, ev.at.value) {
      AcceptOne(db0, db, ev, freshId, owner);
    }
  }

  lemma NewestGrows(arrivals: seq<Arrival>, newest: Option<Envelope>)
    requires arrivals != [] && arrivals[|arrivals| - 1].ev.at.Some?
    requires newest.None? ==> |arrivals| == 1
    requires newest.Some? ==> NewestOf(newest.value, arrivals[..|arrivals| - 1])
    ensures NewestOf(Newer(newest, arrivals[|arrivals| - 1].ev), arrivals)
  {
    var n := |arrivals| - 1;
    assert arrivals[n].ev == arrivals[n].ev;
    if newest.Some? {
      var i :| 0 <= i < n && arrivals[..n][i].ev == newest.value;
      assert arrivals[i].ev == newest.value;
      forall j | 0 <= j < n && arrivals[j].ev.at.Some? ensures arrivals[j].ev.at.value <= newest.value.at.value {
        assert arrivals[..n][j].ev == arrivals[j].ev;
      }
    }
  }

  lemma OneOrderPrefix(db: Tables, arrivals: seq<Arrival>, owner: Owner, order: Id)
    requires OneOrder(db, arrivals, owner, order) && arrivals != []
    ensures OneOrder(db, arrivals[..|arrivals| - 1], owner, order)
  {
  }

  /** After the transactions the tables show the newest event, whatever the order. */
  lemma {:induction false} Settle(db: Tables, arrivals: seq<Arrival>, owner: Owner,
      order: Id) returns (newest: Envelope)
    requires OneOrder(db, arrivals, owner, order) && arrivals != []
    ensures NewestOf(newest, arrivals) && Fits(db, newest, owner, order)
    ensures Settled(db, ApplyAll(db, arrivals), owner, newest)
    decreases |arrivals|
  {
    var n := |arrivals| - 1;
    var last, before := arrivals[n], ApplyAll(db, arrivals[..n]);
    if n == 0 {
      assert arrivals[..n] == [];
      newest := last.ev;
      NewestGrows(arrivals, None);
      ApplyOne(db, before, last.ev, last.now, last.freshId, owner, order, None);
    } else {
      OneOrderPrefix(db, arrivals, owner, order);
      var shown := Settle(db, arrivals[..n], owner, order);
      newest := Newer(Some(shown), last.ev);
      NewestGrows(arrivals, Some(shown));
      ApplyOne(db, before, last.ev, last.now, last.freshId, owner, order, Some(shown));
    }
  }

  // ---------- confluence ----------

  ghost predicate SameEvents(a: seq<Arrival>, b: seq<Arrival>) {
    && (forall i :: 0 <= i < |a| ==> Among(a[i].ev, b))
    && (forall i :: 0 <= i < |b| ==> Among(b[i].ev, a))
  }

  lemma SameNewest(a: seq<Arrival>, b: seq<Arrival>, x: Envelope, y: Envelope)
    requires SameEvents(a, b) && NewestOf(x, a) && NewestOf(y, b)
    requires forall i, j :: 0 <= i < |a| && 0 <= j < |a| && a[i].ev.at == a[j].ev.at ==> a[i].ev == a[j].ev
    ensures x == y
  {
    var i :| 0 <= i < |a| && a[i].ev == x;
    var j :| 0 <= j < |b| && b[j].ev == y;
    assert Among(a[i].ev, b) && Among(b[j].ev, a);
    var k :| 0 <= k < |b| && b[k].ev == x;
    var l :| 0 <= l < |a| && a[l].ev == y;
    assert a[l].ev.at == a[i].ev.at;
  }

  /**
   * The same set of status events for one order, in any two orders with any
   * repetitions, ends with the same status, cancel flag, plan, price and event
   * time, those of the newest event, and with the same granted quota.
   */
  lemma Confluence(db: Tables, a: seq<Arrival>, b: seq<Arrival>, owner: Owner, order: Id) returns (newest: Envelope)
    requires OneOrder(db, a, owner, order) && OneOrder(db, b, owner, order)
    requires a != [] && SameEvents(a, b)
    ensures NewestOf(newest, a) && NewestOf(newest, b) && Fits(db, newest, owner, order)
    ensures Settled(db, ApplyAll(db, a), owner, newest)
    ensures Settled(db, ApplyAll(db, b), owner, newest)
    ensures var x, y := ApplyAll(db, a).subs[owner.tenant], ApplyAll(db, b).subs[owner.tenant];
            && x == y.(id := x.id, periodStart := x.periodStart, periodEnd := x.periodEnd)
            && (newest.data.value.periodStart.Some? && newest.data.value.periodEnd.Some? ==> x == y.(id := x.id))
  {
    assert Among(a[0].ev, b);
    newest := Settle(db, a, owner, order);
    var other := Settle(db, b, owner, order);
    SameNewest(a, b, newest, other);
  }
}

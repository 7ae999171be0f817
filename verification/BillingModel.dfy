/**
 * The billing tables as one value, and every transaction on them as a function
 * (pkg/service/billing_webhook.go, pkg/service/billing_checkout.go and the SQL
 * statements they run). A transaction that fails answers Err: its caller keeps
 * the old tables, as a rolled-back database does.
 */
module BillingModel {
  import opened Common

  type Id = string
  type Time = int

  datatype EventType =
    | OnActivated
    | OnRenewed
    | OnRecovered
    | OnUncanceled
    | OnPlanChanged
    | OnCanceling
    | OnPastDue
    | OnCanceled
    | Unlisted(name: string)

  datatype Status = Pending | Active | Canceling | PastDue | Canceled | Expired

  datatype Subscription = Subscription(
    id: Id, mode: string, orderId: Id, productId: Id, priceId: Id, planId: Id,
    status: Status, currency: string, amount: string,
    periodStart: Option<Time>, periodEnd: Option<Time>,
    cancelAtPeriodEnd: bool, lastEventAt: Option<Time>)

  datatype PlanSource = FromAdmin | FromSubscription

  datatype Quota = Quota(planId: Id, source: PlanSource, subscriptionId: Option<Id>)

  datatype CheckoutStatus = CheckoutPending | CheckoutCompleted | CheckoutExpired | CheckoutFailed

  datatype Checkout = Checkout(tenantId: Id, priceId: Id, status: CheckoutStatus, expiresAt: Option<Time>)

  datatype Price = Price(planId: Id, productId: Id, currency: string, amount: string)

  /** The fields of an event's data object that the service reads. */
  datatype Data = Data(
    orderId: Id, currency: string, amount: string, planTotal: string,
    buyer: Id, metaTenant: Id, metaPrice: Id, productPrice: Id, externalId: Id,
    periodStart: Option<Time>, periodEnd: Option<Time>)

  /** `at` is None when the timestamp does not parse, `data` when the object does not. */
  datatype Envelope = Envelope(
    id: Id, eventId: Id, kind: EventType, mode: string, at: Option<Time>, data: Option<Data>)

  datatype EventKey = EventKey(kind: EventType, eventId: Id, mode: string)

  datatype EventStatus = Received | Processed | Failed

  /** `Store` is any statement that fails for reasons of its own, not the tables'. */
  datatype Error = Unprocessable | NotFound | Conflict | Constraint | BadRequest | Upstream | Store

  /** Subscriptions and quotas are keyed by tenant, checkouts by merchant external id. */
  datatype Tables = Tables(
    tenants: set<Id>, plans: set<Id>, prices: map<Id, Price>, defaultPlan: Option<Id>,
    subs: map<Id, Subscription>, quotas: map<Id, Quota>,
    checkouts: map<Id, Checkout>, events: map<EventKey, EventStatus>)

  datatype Owner = Owner(tenant: Id, price: Id)

  // ---------- reading ----------

  function StatusOf(kind: EventType): Option<Status> {
    match kind
    case OnActivated | OnRenewed | OnRecovered | OnUncanceled | OnPlanChanged => Some(Active)
    case OnCanceling => Some(Canceling)
    case OnPastDue => Some(PastDue)
    case OnCanceled | Unlisted(_) => None
  }

  predicate Starts(kind: EventType) {
    kind.OnActivated? || kind.OnPlanChanged?
  }

  predicate Live(status: Status) {
    status.Active? || status.Canceling? || status.PastDue?
  }

  function FirstNonEmpty(values: seq<string>): (r: string)
    ensures r == "" <==> forall i :: 0 <= i < |values| ==> values[i] == ""
    ensures r != "" ==> r in values
  {
    if values == [] then ""
    else if values[0] != "" then values[0]
    else FirstNonEmpty(values[1..])
  }

  /** No two tenants hold the same order. */
  ghost predicate OrderUnique(subs: map<Id, Subscription>) {
    forall t, u :: t in subs && u in subs && subs[t].orderId == subs[u].orderId ==> t == u
  }

  ghost function Holder(subs: map<Id, Subscription>, order: Id): (r: Option<Id>)
    ensures r.Some? ==> r.value in subs && subs[r.value].orderId == order
    ensures r.None? ==> forall t :: t in subs ==> subs[t].orderId != order
  {
    if exists t :: t in subs && subs[t].orderId == order then
      var t :| t in subs && subs[t].orderId == order;
      Some(t)
    else None
  }

  function TenantClaims(db: Tables, d: Data, holder: Option<Id>): seq<Id> {
    (if d.externalId != "" && d.externalId in db.checkouts then [db.checkouts[d.externalId].tenantId] else [])
    + [d.metaTenant, d.buyer]
    + (if holder.Some? then [holder.value] else [])
  }

  function PriceClaims(db: Tables, d: Data, holder: Option<Id>): seq<Id>
    requires holder.Some? ==> holder.value in db.subs
  {
    (if d.externalId != "" && d.externalId in db.checkouts then [db.checkouts[d.externalId].priceId] else [])
    + [d.metaPrice, d.productPrice]
    + (if holder.Some? then [db.subs[holder.value].priceId] else [])
  }

  /** Every claim that says anything says t, and at least one does. */
  predicate Names(claims: seq<Id>, t: Id) {
    t != "" && t in claims && forall c :: c in claims ==> c == "" || c == t
  }

  /** Whose event this is, and for which price. Contradicting or missing claims are refused. */
  ghost function ResolveOwner(db: Tables, d: Data): Result<Owner, Error> {
    var holder := Holder(db.subs, d.orderId);
    var claims := TenantClaims(db, d, holder);
    var tenant := FirstNonEmpty(claims);
    if Names(claims, tenant) && tenant in db.tenants
    then Ok(Owner(tenant, FirstNonEmpty(PriceClaims(db, d, holder))))
    else Err(Unprocessable)
  }

  // ---------- single statements ----------

  /** INSERT ... ON CONFLICT(tenant_id) DO UPDATE: an existing row keeps its id. */
  function Upsert(db: Tables, tenant: Id, sub: Subscription): Result<Tables, Error> {
    if exists u :: u in db.subs && u != tenant
        && ((db.subs[u].orderId == sub.orderId && db.subs[u].mode == sub.mode)
            || (tenant !in db.subs && db.subs[u].id == sub.id)) then
      Err(Conflict)
    else if tenant in db.subs then
      Ok(db.(subs := db.subs[tenant := sub.(id := db.subs[tenant].id)]))
    else
      Ok(db.(subs := db.subs[tenant := sub]))
  }

  function GrantQuota(db: Tables, tenant: Id, planId: Id, subscriptionId: Id): Result<Tables, Error> {
    if tenant !in db.quotas then Err(NotFound)
    else Ok(db.(quotas := db.quotas[tenant := Quota(planId, FromSubscription, Some(subscriptionId))]))
  }

  /** Takes back only the plan this subscription granted. */
  function RestoreQuota(db: Tables, tenant: Id, subscriptionId: Id): Result<Tables, Error> {
    if tenant in db.quotas && db.quotas[tenant].source.FromSubscription?
       && db.quotas[tenant].subscriptionId == Some(subscriptionId) then
      if db.defaultPlan.None? then Err(Constraint)
      else Ok(db.(quotas := db.quotas[tenant := Quota(db.defaultPlan.value, FromAdmin, None)]))
    else Ok(db)
  }

  /** Only pending checkouts move: a replay cannot revive a failed one. */
  function Completed(checkouts: map<Id, Checkout>, externalId: Id): map<Id, Checkout> {
    if externalId in checkouts && checkouts[externalId].status.CheckoutPending?
    then checkouts[externalId := checkouts[externalId].(status := CheckoutCompleted)]
    else checkouts
  }

  function MarkCompleted(db: Tables, externalId: Id): Tables {
    db.(checkouts := Completed(db.checkouts, externalId))
  }

  function UpdateStatus(db: Tables, tenant: Id, status: Status, cancel: bool,
                        start: Option<Time>, end: Option<Time>, at: Time): Result<Tables, Error> {
    if tenant !in db.subs then Err(NotFound)
    else Ok(db.(subs := db.subs[tenant := db.subs[tenant].(
                  status := status, cancelAtPeriodEnd := cancel, periodStart := start,
                  periodEnd := end, lastEventAt := Some(at))]))
  }

  // ---------- transactions ----------

  function RowFor(mode: string, status: Status, priceId: Id, price: Price, d: Data, at: Time, id: Id): Subscription {
    Subscription(
      id, mode, d.orderId, price.productId, priceId, price.planId, status,
      FirstNonEmpty([d.currency, price.currency]),
      FirstNonEmpty([d.planTotal, d.amount, price.amount]),
      d.periodStart, d.periodEnd, status.Canceling?, Some(at))
  }

  /** The order guards: an older event, or another order's event that does not start a subscription. */
  predicate Ignored(current: Option<Subscription>, kind: EventType, orderId: Id, at: Time) {
    current.Some?
    && ((current.value.lastEventAt.Some? && at < current.value.lastEventAt.value)
        || (current.value.orderId != orderId && !Starts(kind)))
  }

  function Current(db: Tables, tenant: Id): Option<Subscription> {
    if tenant in db.subs then Some(db.subs[tenant]) else None
  }

  function KeepPeriods(sub: Subscription, current: Subscription): Subscription {
    sub.(periodStart := if sub.periodStart.None? then current.periodStart else sub.periodStart,
         periodEnd := if sub.periodEnd.None? then current.periodEnd else sub.periodEnd)
  }

  /** A tenant's row keeps its id, and for the same order the bounds the event does not carry. */
  function RowToBook(current: Option<Subscription>, mode: string, status: Status, priceId: Id, price: Price,
                     d: Data, at: Time, freshId: Id): Subscription {
    var row := RowFor(mode, status, priceId, price, d, at, if current.Some? then current.value.id else freshId);
    if current.Some? && current.value.orderId == d.orderId then KeepPeriods(row, current.value) else row
  }

  /** The three writes of an accepted event; the plan is granted only when a subscription starts. */
  function Book(db: Tables, tenant: Id, sub: Subscription, grants: bool, completes: Id): Result<Tables, Error> {
    var db1 :- Upsert(db, tenant, sub);
    var db2 :- if grants then GrantQuota(db1, tenant, sub.planId, sub.id) else Ok(db1);
    Ok(if completes != "" then MarkCompleted(db2, completes) else db2)
  }

  function ApplyStatus(db: Tables, kind: EventType, mode: string, status: Status, owner: Owner,
                       d: Data, at: Time, freshId: Id): Result<Tables, Error> {
    var current := Current(db, owner.tenant);
    if Ignored(current, kind, d.orderId, at) then Ok(db)
    else if owner.price == "" || owner.price !in db.prices then Err(Unprocessable)
    else
      var price := db.prices[owner.price];
      var sameOrder := current.Some? && current.value.orderId == d.orderId;
      var sub := RowToBook(current, mode, status, owner.price, price, d, at, freshId);
      Book(db, owner.tenant, sub, Starts(kind) || !sameOrder, if kind.OnActivated? then d.externalId else "")
  }

  /** Only the tenant's current order can end its subscription, and only once. */
  function ApplyCanceled(db: Tables, tenant: Id, d: Data, at: Time): Result<Tables, Error> {
    var current := Current(db, tenant);
    if current.None? || current.value.orderId != d.orderId || current.value.status.Canceled? then Ok(db)
    else
      var db1 :- UpdateStatus(db, tenant, Canceled, false, current.value.periodStart, current.value.periodEnd, at);
      RestoreQuota(db1, tenant, current.value.id)
  }

  function EventTime(ev: Envelope, now: Time): Time {
    if ev.at.Some? then ev.at.value else now
  }

  ghost function ApplyWebhook(db: Tables, ev: Envelope, now: Time, freshId: Id): Result<Tables, Error> {
    if StatusOf(ev.kind).None? && !ev.kind.OnCanceled? then Ok(db)
    else if ev.data.None? || ev.data.value.orderId == "" then Err(Unprocessable)
    else
      var d := ev.data.value;
      var owner :- ResolveOwner(db, d);
      if ev.kind.OnCanceled? then ApplyCanceled(db, owner.tenant, d, EventTime(ev, now))
      else ApplyStatus(db, ev.kind, ev.mode, StatusOf(ev.kind).value, owner, d, EventTime(ev, now), freshId)
  }

  /** A transaction's effect on the tables: all of it, or nothing. */
  function Effect(db: Tables, r: Result<Tables, Error>): Tables {
    if r.Ok? then r.value else db
  }

  // ---------- webhook delivery ----------

  function KeyOf(ev: Envelope): EventKey {
    EventKey(ev.kind, if ev.eventId == "" then ev.id else ev.eventId, ev.mode)
  }

  predicate WellFormed(ev: Envelope) {
    KeyOf(ev).eventId != "" && ev.kind != Unlisted("")
  }

  /** Which of a delivery's statements fail for reasons of the store; inside the transaction, any of its own. */
  datatype Faults = Faults(register: bool, ask: bool, transact: bool, mark: bool)

  const UNDISTURBED := Faults(false, false, false, false)

  function Mark(db: Tables, key: EventKey, status: EventStatus): Tables {
    db.(events := db.events[key := status])
  }

  function Register(db: Tables, key: EventKey): Tables {
    if key in db.events then db else Mark(db, key, Received)
  }

  predicate AlreadyProcessed(db: Tables, key: EventKey) {
    key in db.events && db.events[key].Processed?
  }

  ghost function Transact(db: Tables, ev: Envelope, now: Time, freshId: Id, fails: bool): Result<Tables, Error> {
    if fails then Err(Store) else ApplyWebhook(db, ev, now, freshId)
  }

  function ErrorOf(r: Result<Tables, Error>): Option<Error> {
    if r.Ok? then None else Some(r.error)
  }

  function Outcome(error: Option<Error>): EventStatus {
    if error.None? then Processed else Failed
  }

  /**
   * One delivery with nothing in between: register the key, ask for its status if it was there, apply the
   * event in a transaction, mark the outcome.
   */
  ghost function Deliver(db: Tables, ev: Envelope, now: Time, freshId: Id, faults: Faults): (Tables, Option<Error>) {
    if !WellFormed(ev) then (db, Some(Unprocessable))
    else if faults.register then (db, Some(Store))
    else if KeyOf(ev) in db.events && faults.ask then (db, Some(Store))
    else if AlreadyProcessed(db, KeyOf(ev)) then (db, None)
    else
      var registered := Register(db, KeyOf(ev));
      var r := Transact(registered, ev, now, freshId, faults.transact);
      var applied := Effect(registered, r);
      if faults.mark then (applied, Some(if r.Ok? then Store else r.error))
      else (Mark(applied, KeyOf(ev), Outcome(ErrorOf(r))), ErrorOf(r))
  }

  // ---------- polling, user and admin steps ----------

  datatype Order = Order(id: Id, status: Status, createdAt: Option<Time>, periodStart: Option<Time>, periodEnd: Option<Time>)

  datatype Lookup = LookupFailed | NoOrder | Found(order: Order)

  /** Five minutes, in the model's seconds. */
  const EXPIRY_GRACE: int := 300

  function SyncData(tenant: Id, externalId: Id, order: Order): Data {
    Data(order.id, "", "", "", tenant, "", "", "", externalId, order.periodStart, order.periodEnd)
  }

  function OrderTime(order: Order, now: Time): Time {
    if order.createdAt.Some? then order.createdAt.value else now
  }

  ghost function SyncOrder(db: Tables, env: string, tenant: Id, externalId: Id, order: Order, now: Time,
      freshId: Id): Result<Tables, Error> {
    var d := SyncData(tenant, externalId, order);
    var owner :- ResolveOwner(db, d);
    var db1 :- ApplyStatus(db, OnActivated, env, order.status, owner, d, OrderTime(order, now), freshId);
    Ok(MarkCompleted(db1, externalId))
  }

  /** UPDATE ... WHERE id = ?: writes what the caller read earlier, whatever the row says now. */
  function ExpireCheckout(db: Tables, externalId: Id, seen: Checkout): Result<Tables, Error> {
    if externalId !in db.checkouts then Err(NotFound)
    else Ok(db.(checkouts := db.checkouts[externalId := db.checkouts[externalId].(
                  status := CheckoutExpired, expiresAt := seen.expiresAt)]))
  }

  ghost function SyncCheckout(db: Tables, env: string, tenant: Id, externalId: Id, seen: Checkout,
                              lookup: Lookup, now: Time, freshId: Id): Result<Tables, Error> {
    match lookup
    case LookupFailed => Err(Upstream)
    case NoOrder =>
      if seen.expiresAt.Some? && now - seen.expiresAt.value > EXPIRY_GRACE
      then ExpireCheckout(db, externalId, seen) else Ok(db)
    case Found(order) =>
      if !Live(order.status) then Ok(db)
      else SyncOrder(db, env, tenant, externalId, order, now, freshId)
  }

  function CancelStatus(cancel: bool): Status {
    if cancel then Canceling else Active
  }

  /** The final write of Cancel, with the periods the caller read before asking the provider. */
  function CancelCommit(db: Tables, tenant: Id, cancel: bool, seen: Subscription, now: Time): Result<Tables, Error> {
    UpdateStatus(db, tenant, CancelStatus(cancel), cancel, seen.periodStart, seen.periodEnd, now)
  }

  function AssignPlan(db: Tables, tenant: Id, planId: Id): Result<Tables, Error> {
    if tenant !in db.tenants || planId !in db.plans || tenant !in db.quotas then Err(NotFound)
    else Ok(db.(quotas := db.quotas[tenant := Quota(planId, FromAdmin, None)]))
  }

  function OpenCheckout(db: Tables, externalId: Id, checkout: Checkout): Result<Tables, Error> {
    if externalId in db.checkouts then Err(Conflict)
    else Ok(db.(checkouts := db.checkouts[externalId := checkout]))
  }
}

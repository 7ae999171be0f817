/**
 * What holds however deliveries overlap: the invariants and guarantees of single steps carry over, a
 * processed key is settled exactly when no delivery of it is past its check, and deliveries that never
 * committed are as good as never made.
 */
module BillingOverlap {
  import opened Common
  import opened BillingModel
  import opened BillingRuns
  import opened BillingDelivery
  import opened BillingOrder
  import opened BillingFlight

  // ---------- runs of statements ----------

  /** What one turn does to the tables, as steps of the billing machine. */
  ghost function Statement(m: Machine, turn: Turn): seq<Action>
    requires CanTurn(m, turn)
  {
    match turn
    case Arrive(_) => []
    case Meanwhile(a) => [a]
    case Advance(i, move) =>
      var d := m.deliveries[i];
      match move
      case Registering(ok) => if ok && KeyOf(d.ev) !in m.db.events then [Record(KeyOf(d.ev), Received)] else []
      case Committing(now, freshId, ok) => if ok then [Apply(d.ev, now, freshId)] else []
      case Marking(ok) => if ok then [Record(KeyOf(d.ev), Outcome(d.stage.error))] else []
      case _ => []
  }

  ghost function Statements(m: Machine, turns: seq<Turn>): seq<Action>
    requires CanRun(m, turns)
    decreases |turns|
  {
    if turns == [] then []
    else
      var before := turns[..|turns| - 1];
      Statements(m, before) + Statement(RunFrom(m, before), turns[|turns| - 1])
  }

  lemma TurnIsStatement(m: Machine, turn: Turn)
    requires CanTurn(m, turn)
    ensures Take(m, turn).db == Run(m.db, Statement(m, turn))
  {
    var actions := Statement(m, turn);
    if actions != [] {
      assert actions[1..] == [];
      assert Run(m.db, actions) == Step(m.db, actions[0]);
    }
  }

  lemma {:induction false} RunAppend(db: Tables, a: seq<Action>, b: seq<Action>)
    ensures Run(db, a + b) == Run(Run(db, a), b)
    decreases |a|
  {
    if a == [] {
      assert a + b == b;
    } else {
      assert (a + b)[1..] == a[1..] + b;
      RunAppend(Step(db, a[0]), a[1..], b);
    }
  }

  /** Overlapping deliveries are a run of the billing machine, so everything about its runs holds of them. */
  lemma {:induction false} RunIsStatements(m: Machine, turns: seq<Turn>)
    requires CanRun(m, turns)
    ensures RunFrom(m, turns).db == Run(m.db, Statements(m, turns))
    decreases |turns|
  {
    if turns == [] {
    } else {
      var before, last := turns[..|turns| - 1], turns[|turns| - 1];
      RunIsStatements(m, before);
      TurnIsStatement(RunFrom(m, before), last);
      RunAppend(m.db, Statements(m, before), Statement(RunFrom(m, before), last));
    }
  }

  /**
   * However deliveries overlap: the invariants hold, rows stay and keep their ids, and a plan the
   * administrator gave stays unless a start of the tenant's is accepted or a new plan is given.
   */
  lemma OverlapIsSafe(m: Machine, turns: seq<Turn>, t: Id)
    requires Inv(m.db) && CanRun(m, turns)
    ensures var after := RunFrom(m, turns).db;
            && Inv(after)
            && IdKept(m.db.subs, after.subs, t)
            && (t in m.db.quotas && m.db.quotas[t].source.FromAdmin? && LeavesPlanAlone(m.db, Statements(m, turns), t) ==>
                  t in after.quotas && after.quotas[t] == m.db.quotas[t])
  {
    RunIsStatements(m, turns);
    RunKeepsInv(m.db, Statements(m, turns));
    if t in m.db.subs {
      RunKeepsIds(m.db, Statements(m, turns), t);
    }
    if t in m.db.quotas && m.db.quotas[t].source.FromAdmin? && LeavesPlanAlone(m.db, Statements(m, turns), t) {
      AdminPlanSurvives(m.db, Statements(m, turns), t);
    }
  }

  // ---------- processed means committed ----------

  ghost predicate SoundDelivery(m: Machine, d: Delivery) {
    && (d.stage.Arrived? || d.stage.Known? || d.stage.Cleared? || d.stage.Applied? ==> WellFormed(d.ev))
    && (d.stage.Known? || d.stage.Cleared? || d.stage.Applied? ==> KeyOf(d.ev) in m.db.events)
    && (d.stage == Applied(None) ==> KeyOf(d.ev) in m.committed)
  }

  ghost predicate Sound(m: Machine) {
    && (forall i :: 0 <= i < |m.deliveries| ==> SoundDelivery(m, m.deliveries[i]))
    && (forall key :: AlreadyProcessed(m.db, key) ==> key in m.committed)
  }

  /** No turn forgets a key, and only a commit and then a mark make one processed. */
  lemma TurnKeepsKeys(m: Machine, turn: Turn)
    requires Sound(m) && CanTurn(m, turn)
    ensures m.db.events.Keys <= Take(m, turn).db.events.Keys && m.committed <= Take(m, turn).committed
    ensures forall key :: AlreadyProcessed(Take(m, turn).db, key) ==> key in Take(m, turn).committed
  {
    match turn
    case Arrive(_) =>
    case Meanwhile(a) =>
      StepIgnoresEvents(m.db, m.db.events, a);
    case Advance(i, move) =>
      assert SoundDelivery(m, m.deliveries[i]);
      if move.Committing? {
        WebhookIgnoresEvents(m.db, m.db.events, m.deliveries[i].ev, move.now, move.freshId);
      }
  }

  lemma TurnKeepsSound(m: Machine, turn: Turn)
    requires Sound(m) && CanTurn(m, turn)
    ensures Sound(Take(m, turn))
  {
    var n := Take(m, turn);
    TurnKeepsKeys(m, turn);
    forall i | 0 <= i < |n.deliveries| ensures SoundDelivery(n, n.deliveries[i]) {
      if i < |m.deliveries| {
        assert SoundDelivery(m, m.deliveries[i]);
      }
    }
  }

  /** In every run a processed key is one whose transaction committed: no event is answered for nothing. */
  lemma {:induction false} ProcessedMeansCommitted(m: Machine, turns: seq<Turn>)
    requires Sound(m) && CanRun(m, turns)
    ensures Sound(RunFrom(m, turns)) && m.committed <= RunFrom(m, turns).committed
    ensures forall key :: AlreadyProcessed(RunFrom(m, turns).db, key) ==> key in RunFrom(m, turns).committed
    decreases |turns|
  {
    if turns == [] {
    } else {
      var before, last := turns[..|turns| - 1], turns[|turns| - 1];
      ProcessedMeansCommitted(m, before);
      TurnKeepsKeys(RunFrom(m, before), last);
      TurnKeepsSound(RunFrom(m, before), last);
    }
  }

  // ---------- when a processed key is settled ----------

  /** Past its check, or about to mark a failure over whatever the key says by then. */
  predicate PastCheck(d: Delivery, key: EventKey) {
    KeyOf(d.ev) == key && (d.stage.Cleared? || (d.stage.Applied? && d.stage.error.Some?))
  }

  ghost predicate Quiet(m: Machine, key: EventKey) {
    AlreadyProcessed(m.db, key) && forall i :: 0 <= i < |m.deliveries| ==> !PastCheck(m.deliveries[i], key)
  }

  /** The turn runs a transaction for the key. */
  ghost predicate Transacts(m: Machine, turn: Turn, key: EventKey)
    requires CanTurn(m, turn)
  {
    turn.Advance? && turn.move.Committing? && KeyOf(m.deliveries[turn.i].ev) == key
  }

  lemma QuietStays(m: Machine, turn: Turn, key: EventKey)
    requires Sound(m) && CanTurn(m, turn) && Quiet(m, key)
    ensures Quiet(Take(m, turn), key) && !Transacts(m, turn, key)
    ensures turn.Advance? && KeyOf(m.deliveries[turn.i].ev) == key ==> Take(m, turn).db == m.db
  {
    var n := Take(m, turn);
    TurnKeepsKeys(m, turn);
    match turn
    case Arrive(_) =>
    case Meanwhile(a) =>
      StepIgnoresEvents(m.db, m.db.events, a);
    case Advance(i, move) =>
      var d := m.deliveries[i];
      assert !PastCheck(d, key) && SoundDelivery(m, d);
      if move.Committing? {
        WebhookIgnoresEvents(m.db, m.db.events, d.ev, move.now, move.freshId);
      } else if move.Marking? && KeyOf(d.ev) == key {
        assert m.db.events[key := Processed] == m.db.events;
      }
      forall j | 0 <= j < |n.deliveries| ensures !PastCheck(n.deliveries[j], key) {
        assert !PastCheck(m.deliveries[j], key);
      }
  }

  lemma {:induction false} QuietForEver(m: Machine, turns: seq<Turn>, key: EventKey)
    requires Sound(m) && CanRun(m, turns) && Quiet(m, key)
    ensures Sound(RunFrom(m, turns)) && Quiet(RunFrom(m, turns), key)
    decreases |turns|
  {
    if turns == [] {
    } else {
      var before, last := turns[..|turns| - 1], turns[|turns| - 1];
      QuietForEver(m, before, key);
      QuietStays(RunFrom(m, before), last, key);
      TurnKeepsSound(RunFrom(m, before), last);
    }
  }

  /** Once settled, no statement of any delivery of the key, old or new, changes anything in the tables. */
  lemma SettledKeyIsInert(m: Machine, turns: seq<Turn>, i: nat, move: Move, key: EventKey)
    requires Sound(m) && CanRun(m, turns) && Quiet(m, key)
    requires CanTurn(RunFrom(m, turns), Advance(i, move)) && KeyOf(RunFrom(m, turns).deliveries[i].ev) == key
    ensures Take(RunFrom(m, turns), Advance(i, move)).db == RunFrom(m, turns).db
  {
    QuietForEver(m, turns, key);
    QuietStays(RunFrom(m, turns), Advance(i, move), key);
  }

  /** Some continuation runs a transaction for the key. */
  ghost predicate CanTransact(m: Machine, key: EventKey) {
    exists turns, turn :: CanRun(m, turns) && CanTurn(RunFrom(m, turns), turn) && Transacts(RunFrom(m, turns), turn, key)
  }

  /** While its key is not processed, a delivery that arrives now can get past its check. */
  lemma GetsPastCheck(m: Machine, turns: seq<Turn>, ev: Envelope) returns (more: seq<Turn>)
    requires CanRun(m, turns) && WellFormed(ev) && !AlreadyProcessed(RunFrom(m, turns).db, KeyOf(ev))
    ensures CanRun(m, more)
    ensures var before, after := RunFrom(m, turns), RunFrom(m, more);
            && after.deliveries == before.deliveries + [Delivery(ev, Cleared)]
            && after.db == Register(before.db, KeyOf(ev))
  {
    var m0 := RunFrom(m, turns);
    var k := |m0.deliveries|;
    OneMore(m, turns, Arrive(ev));
    more := turns + [Arrive(ev)];
    OneMore(m, more, Advance(k, Registering(true)));
    more := more + [Advance(k, Registering(true))];
    if KeyOf(ev) in m0.db.events {
      OneMore(m, more, Advance(k, Asking(true)));
      more := more + [Advance(k, Asking(true))];
    }
  }

  /** What is not settled can be made unprocessed, if it is not already, without touching a row. */
  lemma UnsettledCanReopen(m: Machine, key: EventKey) returns (turns: seq<Turn>)
    requires !Quiet(m, key)
    ensures CanRun(m, turns) && !AlreadyProcessed(RunFrom(m, turns).db, key)
    ensures RunFrom(m, turns).db == m.db.(events := RunFrom(m, turns).db.events)
  {
    turns := [];
    if AlreadyProcessed(m.db, key) {
      var i :| 0 <= i < |m.deliveries| && PastCheck(m.deliveries[i], key);
      if m.deliveries[i].stage.Cleared? {
        OneMore(m, turns, Advance(i, Committing(0, "", false)));
        turns := turns + [Advance(i, Committing(0, "", false))];
      }
      OneMore(m, turns, Advance(i, Marking(true)));
      turns := turns + [Advance(i, Marking(true))];
    }
  }

  lemma UnsettledCanTransact(m: Machine, key: EventKey)
    requires key.eventId != "" && key.kind != Unlisted("") && !Quiet(m, key)
    ensures CanTransact(m, key)
  {
    var turns := UnsettledCanReopen(m, key);
    var ev := Envelope(key.eventId, key.eventId, key.kind, key.mode, None, None);
    var k := |RunFrom(m, turns).deliveries|;
    turns := GetsPastCheck(m, turns, ev);
    assert RunFrom(m, turns).deliveries[k] == Delivery(ev, Cleared);
    assert Transacts(RunFrom(m, turns), Advance(k, Committing(0, "", true)), key);
  }

  /**
   * A transaction for the key can never run again if and only if the key is processed and no delivery of it
   * is past its check or about to mark a failure.
   */
  lemma SettledExactly(m: Machine, key: EventKey)
    requires Sound(m) && key.eventId != "" && key.kind != Unlisted("")
    ensures Quiet(m, key) <==> !CanTransact(m, key)
  {
    if !Quiet(m, key) {
      UnsettledCanTransact(m, key);
    } else if turns, turn :| CanRun(m, turns) && CanTurn(RunFrom(m, turns), turn) && Transacts(RunFrom(m, turns), turn, key) {
      QuietForEver(m, turns, key);
      QuietStays(RunFrom(m, turns), turn, key);
    }
  }

  // ---------- the same for rows ----------

  ghost predicate ChangesRows(m: Machine, turn: Turn, key: EventKey)
    requires CanTurn(m, turn)
  {
    turn.Advance? && KeyOf(m.deliveries[turn.i].ev) == key && !RowsKept(m.db, Take(m, turn).db)
  }

  ghost predicate CanChangeRows(m: Machine, key: EventKey) {
    exists turns, turn :: CanRun(m, turns) && CanTurn(RunFrom(m, turns), turn) && ChangesRows(RunFrom(m, turns), turn, key)
  }

  predicate Subscribed(db: Tables, t: Id) {
    && t != "" && t in db.tenants && t in db.quotas && t in db.subs
    && db.subs[t].orderId != "" && db.subs[t].priceId != "" && db.subs[t].priceId in db.prices
  }

  /** A later event of the order the tenant has. */
  function LaterEvent(db: Tables, t: Id, key: EventKey): Envelope
    requires Subscribed(db, t)
  {
    var row := db.subs[t];
    var at := if row.lastEventAt.Some? then row.lastEventAt.value + 1 else 0;
    Envelope(key.eventId, key.eventId, key.kind, key.mode, Some(at),
             Some(Data(row.orderId, "", "", "", t, "", row.priceId, "", "", None, None)))
  }

  lemma LaterEventIsOwned(db: Tables, t: Id, key: EventKey)
    requires Inv(db) && Subscribed(db, t)
    ensures ResolveOwner(db, LaterEvent(db, t, key).data.value) == Ok(Owner(t, db.subs[t].priceId))
  {
    var d := LaterEvent(db, t, key).data.value;
    var holder := Holder(db.subs, d.orderId);
    assert holder == Some(t);
    var claims, prices := TenantClaims(db, d, holder), PriceClaims(db, d, holder);
    assert claims == ["", t, t] && prices == [d.metaPrice, "", d.metaPrice];
    assert claims[1..] == [t, t] && FirstNonEmpty(claims[1..]) == t;
    assert claims[1] == t;
  }

  /** An event of this kind can change something: a status event, or the end of what has not ended. */
  predicate Matters(db: Tables, t: Id, kind: EventType)
    requires Subscribed(db, t)
  {
    StatusOf(kind).Some? || (kind.OnCanceled? && !db.subs[t].status.Canceled? && db.defaultPlan.Some?)
  }

  lemma LaterEventIsBooked(db: Tables, t: Id, key: EventKey, now: Time, freshId: Id)
    requires Inv(db) && Subscribed(db, t) && Matters(db, t, key.kind)
    ensures var r := ApplyWebhook(db, LaterEvent(db, t, key), now, freshId); r.Ok? && r.value.subs != db.subs
  {
    var ev := LaterEvent(db, t, key);
    var owner := Owner(t, db.subs[t].priceId);
    LaterEventIsOwned(db, t, key);
    if key.kind.OnCanceled? {
      assert ApplyWebhook(db, ev, now, freshId) == ApplyCanceled(db, t, ev.data.value, ev.at.value);
      assert ApplyCanceled(db, t, ev.data.value, ev.at.value).value.subs[t].status.Canceled?;
    } else {
      NoOtherHolder(db, ev.data.value, owner);
      BookedLater(db, ev, owner, now, freshId);
    }
  }

  lemma BookedLater(db: Tables, ev: Envelope, owner: Owner, now: Time, freshId: Id)
    requires ev.data.Some? && ev.at.Some? && StatusOf(ev.kind).Some? && ev.data.value.orderId != ""
    requires ResolveOwner(db, ev.data.value) == Ok(owner) && owner.price != "" && owner.price in db.prices
    requires owner.tenant in db.subs && owner.tenant in db.quotas && db.subs[owner.tenant].orderId == ev.data.value.orderId
    requires var last := db.subs[owner.tenant].lastEventAt; last.Some? ==> last.value < ev.at.value
    requires forall u :: u in db.subs && u != owner.tenant ==> db.subs[u].orderId != ev.data.value.orderId
    ensures var r := ApplyWebhook(db, ev, now, freshId); r.Ok? && r.value.subs != db.subs
  {
    var d, t, status := ev.data.value, owner.tenant, StatusOf(ev.kind).value;
    ApplyIsStatus(db, ev, now, freshId, owner);
    StatusIsBooked(db, ev.kind, ev.mode, status, owner, d, ev.at.value, freshId);
    ApplyStatusShape(db, ev.kind, ev.mode, status, owner, d, ev.at.value, freshId);
    assert ApplyWebhook(db, ev, now, freshId).value.subs[t].lastEventAt == Some(ev.at.value);
  }

  /**
   * An event whose timestamp does not parse, of the order the tenant has: ignored while the clock is behind
   * the row's last event, booked when the clock has passed it. Applying it twice is not applying it once.
   */
  lemma UntimedEventIsBookedLater(db: Tables, t: Id, key: EventKey, now1: Time, id1: Id, now2: Time, id2: Id)
    requires Inv(db) && Subscribed(db, t) && StatusOf(key.kind).Some?
    requires db.subs[t].lastEventAt.Some? && now1 < db.subs[t].lastEventAt.value < now2
    ensures var ev := LaterEvent(db, t, key).(at := None);
            && ApplyWebhook(db, ev, now1, id1) == Ok(db)
            && ApplyWebhook(db, ev, now2, id2).Ok? && ApplyWebhook(db, ev, now2, id2).value.subs != db.subs
  {
    var ev := LaterEvent(db, t, key).(at := None);
    var owner := Owner(t, db.subs[t].priceId);
    LaterEventIsOwned(db, t, key);
    NoOtherHolder(db, ev.data.value, owner);
    BookedLater(db, ev.(at := Some(now2)), owner, now2, id2);
    assert ApplyWebhook(db, ev, now2, id2) == ApplyWebhook(db, ev.(at := Some(now2)), now2, id2);
    ApplyIsStatus(db, ev.(at := Some(now1)), now1, id1, owner);
    assert ApplyWebhook(db, ev, now1, id1) == ApplyWebhook(db, ev.(at := Some(now1)), now1, id1);
  }

  /** For a tenant with a row the row's own id is used: no conflict can arise. */
  lemma StatusIsBooked(db: Tables, kind: EventType, mode: string, status: Status, owner: Owner, d: Data, at: Time,
      freshId: Id)
    requires owner.price != "" && owner.price in db.prices && owner.tenant in db.quotas && owner.tenant in db.subs
    requires forall u :: u in db.subs && u != owner.tenant ==> db.subs[u].orderId != d.orderId
    ensures ApplyStatus(db, kind, mode, status, owner, d, at, freshId).Ok?
  {
  }

  lemma CommitChangesRows(m: Machine, k: nat, ev: Envelope)
    requires k < |m.deliveries| && m.deliveries[k] == Delivery(ev, Cleared)
    requires ApplyWebhook(m.db, ev, 0, "").Ok? && ApplyWebhook(m.db, ev, 0, "").value.subs != m.db.subs
    ensures CanTurn(m, Advance(k, Committing(0, "", true))) && ChangesRows(m, Advance(k, Committing(0, "", true)), KeyOf(ev))
  {
    assert Take(m, Advance(k, Committing(0, "", true))).db == ApplyWebhook(m.db, ev, 0, "").value;
  }

  lemma UnsettledCanChangeRows(m: Machine, key: EventKey, t: Id)
    requires Inv(m.db) && Subscribed(m.db, t) && Matters(m.db, t, key.kind) && key.eventId != "" && !Quiet(m, key)
    ensures CanChangeRows(m, key)
  {
    var ev := LaterEvent(m.db, t, key);
    assert WellFormed(ev) && KeyOf(ev) == key;
    var reopened := UnsettledCanReopen(m, key);
    var turns := GetsPastCheck(m, reopened, ev);
    var k, n := |RunFrom(m, reopened).deliveries|, RunFrom(m, turns);
    assert n.deliveries[k] == Delivery(ev, Cleared);
    assert n.db == m.db.(events := n.db.events);
    LaterEventIsBooked(m.db, t, key, 0, "");
    WebhookIgnoresEvents(m.db, n.db.events, ev, 0, "");
    CommitChangesRows(n, k, ev);
  }

  /**
   * Once some tenant is subscribed, so that events of the kind matter: a later delivery of a key can change
   * subscriptions or quotas if and only if the key is not settled.
   */
  lemma SettledExactlyForRows(m: Machine, key: EventKey, t: Id)
    requires Sound(m) && Inv(m.db) && Subscribed(m.db, t) && Matters(m.db, t, key.kind) && key.eventId != ""
    ensures Quiet(m, key) <==> !CanChangeRows(m, key)
  {
    if !Quiet(m, key) {
      UnsettledCanChangeRows(m, key, t);
    } else if turns, turn :| CanRun(m, turns) && CanTurn(RunFrom(m, turns), turn) && ChangesRows(RunFrom(m, turns), turn, key) {
      SettledKeyIsInert(m, turns, turn.i, turn.move, key);
    }
  }

  // ---------- a late duplicate ----------

  /** The event is applied, the administrator assigns a plan, the event is applied again. */
  lemma StatusOverAssignment(db: Tables, kind: EventType, mode: string, status: Status, d: Data, at: Time, id1: Id,
      plan: Quota, e: map<EventKey, EventStatus>, id2: Id)
    requires Inv(db) && Starts(kind) && !status.Canceled? && ResolveOwner(db, d).Ok?
    requires ApplyStatus(db, kind, mode, status, ResolveOwner(db, d).value, d, at, id1).Ok?
    requires !Ignored(Current(db, ResolveOwner(db, d).value.tenant), kind, d.orderId, at)
    ensures var owner := ResolveOwner(db, d).value;
            var once := ApplyStatus(db, kind, mode, status, owner, d, at, id1).value;
            var given := once.(quotas := once.quotas[owner.tenant := plan], events := e);
            var again := ApplyStatus(given, kind, mode, status, owner, d, at, id2);
            && owner.tenant in once.quotas && ResolveOwner(given, d) == Ok(owner)
            && again.Ok? && owner.tenant in again.value.quotas && again.value.quotas[owner.tenant].source.FromSubscription?
  {
    var owner := ResolveOwner(db, d).value;
    var once := ApplyStatus(db, kind, mode, status, owner, d, at, id1).value;
    var given := once.(quotas := once.quotas[owner.tenant := plan], events := e);
    AcceptedIsShown(db, kind, mode, status, d, at, id1);
    ShownTells(once, kind, mode, status, owner, d, at);
    SameClaims(once, given, d);
    NoOtherHolder(once, d, owner);
    GivenIsRetaken(given, kind, mode, status, owner, d, at, id2);
  }

  lemma GivenIsRetaken(db: Tables, kind: EventType, mode: string, status: Status, owner: Owner, d: Data, at: Time, id: Id)
    requires Starts(kind) && owner.price != "" && owner.price in db.prices
    requires owner.tenant in db.quotas && owner.tenant in db.subs
    requires db.subs[owner.tenant].orderId == d.orderId && db.subs[owner.tenant].lastEventAt == Some(at)
    requires forall u :: u in db.subs && u != owner.tenant ==> db.subs[u].orderId != d.orderId
    ensures var again := ApplyStatus(db, kind, mode, status, owner, d, at, id);
            again.Ok? && owner.tenant in again.value.quotas && again.value.quotas[owner.tenant].source.FromSubscription?
  {
    StatusIsBooked(db, kind, mode, status, owner, d, at, id);
    ApplyStatusShape(db, kind, mode, status, owner, d, at, id);
  }

  lemma AppliedOverAssignment(db: Tables, ev: Envelope, now1: Time, id1: Id, plan: Quota, e: map<EventKey, EventStatus>,
      now2: Time, id2: Id)
    requires Inv(db) && Starts(ev.kind) && ev.at.Some?
    requires ApplyWebhook(db, ev, now1, id1).Ok?
    requires !Ignored(Current(db, OwnerOf(db, ev).tenant), ev.kind, ev.data.value.orderId, ev.at.value)
    ensures var t, once := OwnerOf(db, ev).tenant, ApplyWebhook(db, ev, now1, id1).value;
            && t in once.quotas
            && var again := ApplyWebhook(once.(quotas := once.quotas[t := plan], events := e), ev, now2, id2);
               again.Ok? && t in again.value.quotas && again.value.quotas[t].source.FromSubscription?
  {
    var d, owner := ev.data.value, OwnerOf(db, ev);
    ApplyIsStatus(db, ev, now1, id1, owner);
    StatusOverAssignment(db, ev.kind, ev.mode, StatusOf(ev.kind).value, d, ev.at.value, id1, plan, e, id2);
    var once := ApplyWebhook(db, ev, now1, id1).value;
    ApplyIsStatus(once.(quotas := once.quotas[owner.tenant := plan], events := e), ev, now2, id2, owner);
  }

  lemma SameClaims(x: Tables, y: Tables, d: Data)
    requires y == x.(quotas := y.quotas, events := y.events)
    ensures ResolveOwner(y, d) == ResolveOwner(x, d)
  {
  }

  /** One delivery past its check commits and marks its key. */
  lemma CommitAndMark(m: Machine, turns: seq<Turn>, k: nat, ev: Envelope, now: Time, freshId: Id) returns (more: seq<Turn>)
    requires CanRun(m, turns) && k < |RunFrom(m, turns).deliveries| && RunFrom(m, turns).deliveries[k] == Delivery(ev, Cleared)
    requires ApplyWebhook(RunFrom(m, turns).db, ev, now, freshId).Ok?
    ensures CanRun(m, more)
    ensures var before, after := RunFrom(m, turns), RunFrom(m, more);
            && after.db == Mark(ApplyWebhook(before.db, ev, now, freshId).value, KeyOf(ev), Processed)
            && |after.deliveries| == |before.deliveries|
            && forall j :: 0 <= j < |before.deliveries| && j != k ==> after.deliveries[j] == before.deliveries[j]
  {
    OneMore(m, turns, Advance(k, Committing(now, freshId, true)));
    more := turns + [Advance(k, Committing(now, freshId, true))];
    assert RunFrom(m, more).deliveries[k] == Delivery(ev, Applied(None));
    OneMore(m, more, Advance(k, Marking(true)));
    more := more + [Advance(k, Marking(true))];
  }

  /** Both deliveries are past their check; the first commits and marks; then the plan is assigned. */
  lemma AssignedMeanwhile(m: Machine, ev: Envelope, now: Time, freshId: Id, t: Id, planId: Id) returns (turns: seq<Turn>)
    requires WellFormed(ev) && !AlreadyProcessed(m.db, KeyOf(ev))
    requires ApplyWebhook(m.db, ev, now, freshId).Ok?
    requires var once := ApplyWebhook(m.db, ev, now, freshId).value;
             && t in once.quotas && t in m.db.tenants && planId in m.db.plans
             && once == m.db.(subs := once.subs, quotas := once.quotas, checkouts := once.checkouts)
    ensures CanRun(m, turns)
    ensures var once, n := ApplyWebhook(m.db, ev, now, freshId).value, RunFrom(m, turns);
            && n.db == once.(quotas := once.quotas[t := Quota(planId, FromAdmin, None)], events := n.db.events)
            && AlreadyProcessed(n.db, KeyOf(ev))
            && |n.deliveries| == |m.deliveries| + 2 && n.deliveries[|m.deliveries| + 1] == Delivery(ev, Cleared)
  {
    var k := |m.deliveries|;
    var once := ApplyWebhook(m.db, ev, now, freshId).value;
    turns := GetsPastCheck(m, [], ev);
    turns := GetsPastCheck(m, turns, ev);
    var m2 := RunFrom(m, turns);
    assert m2.deliveries == m.deliveries + [Delivery(ev, Cleared), Delivery(ev, Cleared)];
    assert m2.db == m.db.(events := m2.db.events);
    WebhookIgnoresEvents(m.db, m2.db.events, ev, now, freshId);
    turns := CommitAndMark(m, turns, k, ev, now, freshId);
    var m3 := RunFrom(m, turns);
    assert m3.db == once.(events := m3.db.events);
    OneMore(m, turns, Meanwhile(Assign(t, planId)));
    turns := turns + [Meanwhile(Assign(t, planId))];
  }

  /**
   * Two deliveries of one starting event are past their check; the first commits and marks its key
   * processed; the administrator assigns a plan; the second commits and takes the plan back.
   */
  lemma LateDuplicateRegrants(m: Machine, ev: Envelope, now1: Time, id1: Id, now2: Time, id2: Id, planId: Id)
    returns (turns: seq<Turn>)
    requires Inv(m.db) && WellFormed(ev) && Starts(ev.kind) && ev.at.Some? && !AlreadyProcessed(m.db, KeyOf(ev))
    requires ApplyWebhook(m.db, ev, now1, id1).Ok? && planId in m.db.plans
    requires !Ignored(Current(m.db, OwnerOf(m.db, ev).tenant), ev.kind, ev.data.value.orderId, ev.at.value)
    ensures turns != [] && CanRun(m, turns)
    ensures var t, before, after := OwnerOf(m.db, ev).tenant, RunFrom(m, turns[..|turns| - 1]).db, RunFrom(m, turns).db;
            && AlreadyProcessed(before, KeyOf(ev))
            && t in before.quotas && before.quotas[t] == Quota(planId, FromAdmin, None)
            && t in after.quotas && after.quotas[t].source.FromSubscription?
  {
    var t, k := OwnerOf(m.db, ev).tenant, |m.deliveries|;
    OnlyRowsWritten(m.db, ev, now1, id1);
    AppliedOverAssignment(m.db, ev, now1, id1, Quota(planId, FromAdmin, None), map[], now2, id2);
    var before := AssignedMeanwhile(m, ev, now1, id1, t, planId);
    var n := RunFrom(m, before);
    AppliedOverAssignment(m.db, ev, now1, id1, Quota(planId, FromAdmin, None), n.db.events, now2, id2);
    turns := DuplicateCommits(m, before, k + 1, ev, now2, id2);
  }

  lemma DuplicateCommits(m: Machine, before: seq<Turn>, k: nat, ev: Envelope, now: Time, freshId: Id)
    returns (turns: seq<Turn>)
    requires CanRun(m, before) && k < |RunFrom(m, before).deliveries| && RunFrom(m, before).deliveries[k] == Delivery(ev, Cleared)
    requires ApplyWebhook(RunFrom(m, before).db, ev, now, freshId).Ok?
    ensures turns != [] && CanRun(m, turns) && turns[..|turns| - 1] == before
    ensures RunFrom(m, turns).db == ApplyWebhook(RunFrom(m, before).db, ev, now, freshId).value
  {
    OneMore(m, before, Advance(k, Committing(now, freshId, true)));
    turns := before + [Advance(k, Committing(now, freshId, true))];
    assert turns[..|turns| - 1] == before;
  }

  lemma OnlyRowsWritten(db: Tables, ev: Envelope, now: Time, freshId: Id)
    requires Inv(db) && ApplyWebhook(db, ev, now, freshId).Ok?
    ensures var after := ApplyWebhook(db, ev, now, freshId).value;
            after == db.(subs := after.subs, quotas := after.quotas, checkouts := after.checkouts)
  {
    ApplyWebhookKeeps(db, ev, now, freshId);
  }

  // ---------- deliveries that never committed ----------

  /** What a run did besides the deliveries of one key. */
  function WithoutKey(actions: seq<Action>, key: EventKey): seq<Action> {
    if actions == [] then []
    else
      var last := actions[|actions| - 1];
      WithoutKey(actions[..|actions| - 1], key) + if OfKey(last, key) then [] else [last]
  }

  predicate OfKey(a: Action, key: EventKey) {
    (a.Apply? && KeyOf(a.ev) == key) || (a.Record? && a.key == key)
  }

  lemma {:induction false} WithoutKeyAppend(a: seq<Action>, b: seq<Action>, key: EventKey)
    ensures WithoutKey(a + b, key) == WithoutKey(a, key) + WithoutKey(b, key)
    decreases |b|
  {
    if b == [] {
      assert a + b == a;
    } else {
      assert (a + b)[..|a + b| - 1] == a + b[..|b| - 1];
      WithoutKeyAppend(a, b[..|b| - 1], key);
    }
  }

  lemma OtherStepKeepsOnlyKey(x: Tables, y: Tables, a: Action, key: EventKey)
    requires OnlyKeyDiffers(x, y, key) && !OfKey(a, key)
    ensures OnlyKeyDiffers(Step(x, a), Step(y, a), key)
    ensures AlreadyProcessed(Step(x, a), key) <==> AlreadyProcessed(x, key)
  {
    if !a.Record? {
      StepIgnoresEvents(x, y.events, a);
      StepIgnoresEvents(x, x.events, a);
    }
  }

  /** A statement of the key's own deliveries that commits nothing writes the key's status at most. */
  lemma OwnTurnKeepsOnlyKey(m: Machine, turn: Turn, key: EventKey)
    requires CanTurn(m, turn) && key !in Take(m, turn).committed
    requires turn.Advance? && KeyOf(m.deliveries[turn.i].ev) == key
    ensures OnlyKeyDiffers(m.db, Take(m, turn).db, key)
  {
    var d := m.deliveries[turn.i];
    assert !Commits(m.db, d, turn.move);
  }

  lemma RunOfOne(db: Tables, a: Action)
    ensures Run(db, [a]) == Step(db, a)
  {
    assert [a][1..] == [];
  }

  /** A turn that commits nothing for the key does the same to tables that differ in the key only. */
  lemma TurnKeepsOnlyKey(m: Machine, turn: Turn, x: Tables, key: EventKey)
    requires CanTurn(m, turn) && OnlyKeyDiffers(x, m.db, key) && key !in Take(m, turn).committed
    ensures var others := WithoutKey(Statement(m, turn), key);
            && OnlyKeyDiffers(Run(x, others), Take(m, turn).db, key)
            && (AlreadyProcessed(Run(x, others), key) <==> AlreadyProcessed(x, key))
  {
    var actions := Statement(m, turn);
    TurnIsStatement(m, turn);
    if actions == [] {
    } else {
      var a := actions[0];
      assert actions == [a] && actions[..0] == [] && WithoutKey([], key) == [];
      assert WithoutKey(actions, key) == if OfKey(a, key) then [] else [a];
      RunOfOne(x, a);
      RunOfOne(m.db, a);
      if OfKey(a, key) {
        OwnTurnKeepsOnlyKey(m, turn, key);
      } else {
        OtherStepKeepsOnlyKey(x, m.db, a, key);
      }
    }
  }

  lemma {:induction false} OthersRunTheSame(m: Machine, turns: seq<Turn>, key: EventKey)
    requires Sound(m) && CanRun(m, turns) && key !in RunFrom(m, turns).committed
    ensures var others := Run(m.db, WithoutKey(Statements(m, turns), key));
            OnlyKeyDiffers(others, RunFrom(m, turns).db, key) && !AlreadyProcessed(others, key)
    decreases |turns|
  {
    if turns == [] {
    } else {
      var before, last := turns[..|turns| - 1], turns[|turns| - 1];
      var n := RunFrom(m, before);
      ProcessedMeansCommitted(m, before);
      TurnKeepsKeys(n, last);
      OthersRunTheSame(m, before, key);
      var actions := Statement(n, last);
      WithoutKeyAppend(Statements(m, before), actions, key);
      RunAppend(m.db, WithoutKey(Statements(m, before), key), WithoutKey(actions, key));
      TurnKeepsOnlyKey(n, last, Run(m.db, WithoutKey(Statements(m, before), key)), key);
    }
  }

  /**
   * Deliveries that failed or died without committing, however many and however they overlapped with
   * everything else: a redelivery ends in the tables, with the answer, it would have had without them.
   */
  lemma FailedDeliveriesAreForgotten(m: Machine, turns: seq<Turn>, ev: Envelope, now: Time, freshId: Id)
    requires Sound(m) && CanRun(m, turns) && WellFormed(ev) && KeyOf(ev) !in RunFrom(m, turns).committed
    ensures var others := Run(m.db, WithoutKey(Statements(m, turns), KeyOf(ev)));
            Finish(RunFrom(m, turns).db, Delivery(ev, Arrived), now, freshId, UNDISTURBED)
            == Finish(others, Delivery(ev, Arrived), now, freshId, UNDISTURBED)
            == Marked(ApplyWebhook(others, ev, now, freshId), others, KeyOf(ev))
  {
    var others := Run(m.db, WithoutKey(Statements(m, turns), KeyOf(ev)));
    OthersRunTheSame(m, turns, KeyOf(ev));
    ProcessedMeansCommitted(m, turns);
    DeliverForgetsStatus(others, RunFrom(m, turns).db, ev, now, freshId);
    UndisturbedIsDeliver(others, ev, now, freshId, UNDISTURBED);
    UndisturbedIsDeliver(RunFrom(m, turns).db, ev, now, freshId, UNDISTURBED);
    DeliverShape(others, ev, now, freshId);
  }

  // ---------- confluence of overlapping deliveries ----------

  /** The transactions that a run of deliveries ran, in their order. */
  ghost function Transactions(m: Machine, turns: seq<Turn>): seq<Arrival>
    requires CanRun(m, turns)
    decreases |turns|
  {
    if turns == [] then []
    else
      var n := RunFrom(m, turns[..|turns| - 1]);
      Transactions(m, turns[..|turns| - 1]) + Transaction(n, turns[|turns| - 1])
  }

  ghost function Transaction(m: Machine, turn: Turn): seq<Arrival>
    requires CanTurn(m, turn)
  {
    if turn.Advance? && turn.move.Committing? && turn.move.ok
    then [Arrival(m.deliveries[turn.i].ev, turn.move.now, turn.move.freshId)] else []
  }

  predicate OnlyDeliveries(turns: seq<Turn>) {
    forall i :: 0 <= i < |turns| ==> !turns[i].Meanwhile?
  }

  lemma RowsAreTheTransaction(m: Machine, turn: Turn, rows: Tables)
    requires CanTurn(m, turn) && !turn.Meanwhile? && m.db == rows.(events := m.db.events)
    ensures var after, t := Take(m, turn).db, Transaction(m, turn);
            && |t| <= 1
            && after == (if t == [] then rows else Effect(rows, ApplyWebhook(rows, t[0].ev, t[0].now, t[0].freshId))).(events := after.events)
  {
    var t := Transaction(m, turn);
    if t != [] {
      WebhookIgnoresEvents(rows, m.db.events, t[0].ev, t[0].now, t[0].freshId);
    }
  }

  lemma ApplyOneMore(db: Tables, done: seq<Arrival>, a: Arrival)
    ensures ApplyAll(db, done + [a]) == Effect(ApplyAll(db, done), ApplyWebhook(ApplyAll(db, done), a.ev, a.now, a.freshId))
  {
    assert (done + [a])[..|done|] == done;
  }

  lemma {:induction false} RowsAreTheTransactions(m: Machine, turns: seq<Turn>)
    requires CanRun(m, turns) && OnlyDeliveries(turns)
    ensures var after := RunFrom(m, turns).db; after == ApplyAll(m.db, Transactions(m, turns)).(events := after.events)
    decreases |turns|
  {
    if turns == [] {
    } else {
      var before, last := turns[..|turns| - 1], turns[|turns| - 1];
      var n, done := RunFrom(m, before), Transactions(m, before);
      RowsAreTheTransactions(m, before);
      assert !last.Meanwhile?;
      RowsAreTheTransaction(n, last, ApplyAll(m.db, done));
      if Transaction(n, last) == [] {
        assert done + [] == done;
      } else {
        ApplyOneMore(m.db, done, Transaction(n, last)[0]);
        assert Transaction(n, last) == [Transaction(n, last)[0]];
      }
    }
  }

  /**
   * Two runs of deliveries of one order's status events, overlapping as they may, with any statements
   * failing and any transactions repeated: if the same events got to their transaction, both end with the
   * newest event's row and grant.
   */
  lemma OverlapsAgree(m: Machine, n: Machine, a: seq<Turn>, b: seq<Turn>, owner: Owner, order: Id)
    returns (newest: Envelope)
    requires m.db == n.db && CanRun(m, a) && CanRun(n, b) && OnlyDeliveries(a) && OnlyDeliveries(b)
    requires OneOrder(m.db, Transactions(m, a), owner, order) && OneOrder(m.db, Transactions(n, b), owner, order)
    requires Transactions(m, a) != [] && SameEvents(Transactions(m, a), Transactions(n, b))
    ensures NewestOf(newest, Transactions(m, a)) && Fits(m.db, newest, owner, order)
    ensures Inv(RunFrom(m, a).db) && Inv(RunFrom(n, b).db)
    ensures var t, x, y := owner.tenant, RunFrom(m, a).db, RunFrom(n, b).db;
            && t in x.subs && t in y.subs && t in x.quotas && t in y.quotas
            && RowShows(x.subs[t], newest, owner.price, m.db.prices[owner.price])
            && x.subs[t] == y.subs[t].(id := x.subs[t].id, periodStart := x.subs[t].periodStart, periodEnd := x.subs[t].periodEnd)
            && x.quotas[t] == Quota(m.db.prices[owner.price].planId, FromSubscription, Some(x.subs[t].id))
            && y.quotas[t] == Quota(m.db.prices[owner.price].planId, FromSubscription, Some(y.subs[t].id))
  {
    newest := Confluence(m.db, Transactions(m, a), Transactions(n, b), owner, order);
    RowsAreTheTransactions(m, a);
    RowsAreTheTransactions(n, b);
  }
}

/**
 * Deliveries in flight. Registering a key, asking for its status, the transaction and the closing mark are
 * separate statements, and any number of deliveries, of the same event too, go through them side by side
 * with everything else that writes the tables.
 */
module BillingFlight {
  import opened Common
  import opened BillingModel
  import opened BillingRuns

  datatype Stage =
    | Arrived                              // well formed, nothing done
    | Known                                // its key was on record already
    | Cleared                              // past its check, about to run its transaction
    | Applied(error: Option<Error>)        // the transaction is over, the mark is not
    | Answered(answer: Option<Error>)
    | Dead                                 // its process died

  datatype Delivery = Delivery(ev: Envelope, stage: Stage)

  /** `committed` remembers the keys one of whose transactions has committed. */
  datatype Machine = Machine(db: Tables, deliveries: seq<Delivery>, committed: set<EventKey>)

  /** The next statement of one delivery; `ok` is false when the store fails it. */
  datatype Move =
    | Registering(ok: bool)
    | Asking(ok: bool)
    | Committing(now: Time, freshId: Id, ok: bool)
    | Marking(ok: bool)
    | Dying

  datatype Turn =
    | Arrive(ev: Envelope)
    | Advance(i: nat, move: Move)
    | Meanwhile(a: Action)                 // polling, cancelling, assigning, opening a checkout

  predicate CanMove(d: Delivery, move: Move) {
    match move
    case Registering(_) => d.stage.Arrived?
    case Asking(_) => d.stage.Known?
    case Committing(_, _, _) => d.stage.Cleared?
    case Marking(_) => d.stage.Applied?
    case Dying => !d.stage.Answered? && !d.stage.Dead?
  }

  ghost function Moved(db: Tables, d: Delivery, move: Move): (Tables, Stage)
    requires CanMove(d, move)
  {
    var key := KeyOf(d.ev);
    match move
    case Registering(ok) =>
      if !ok then (db, Answered(Some(Store))) else (Register(db, key), if key in db.events then Known else Cleared)
    case Asking(ok) =>
      if !ok then (db, Answered(Some(Store))) else (db, if AlreadyProcessed(db, key) then Answered(None) else Cleared)
    case Committing(now, freshId, ok) =>
      var r := Transact(db, d.ev, now, freshId, !ok);
      (Effect(db, r), Applied(ErrorOf(r)))
    case Marking(ok) =>
      var e := d.stage.error;
      if ok then (Mark(db, key, Outcome(e)), Answered(e)) else (db, Answered(if e.Some? then e else Some(Store)))
    case Dying => (db, Dead)
  }

  predicate CanTurn(m: Machine, turn: Turn) {
    match turn
    case Arrive(_) => true
    case Advance(i, move) => i < |m.deliveries| && CanMove(m.deliveries[i], move)
    case Meanwhile(a) => !a.Apply? && !a.Record?
  }

  ghost predicate Commits(db: Tables, d: Delivery, move: Move) {
    move.Committing? && Transact(db, d.ev, move.now, move.freshId, !move.ok).Ok?
  }

  ghost function Take(m: Machine, turn: Turn): Machine
    requires CanTurn(m, turn)
  {
    match turn
    case Arrive(ev) =>
      m.(deliveries := m.deliveries + [Delivery(ev, if WellFormed(ev) then Arrived else Answered(Some(Unprocessable)))])
    case Advance(i, move) =>
      var d := m.deliveries[i];
      var (db, stage) := Moved(m.db, d, move);
      Machine(db, m.deliveries[i := d.(stage := stage)],
              if Commits(m.db, d, move) then m.committed + {KeyOf(d.ev)} else m.committed)
    case Meanwhile(a) => m.(db := Step(m.db, a))
  }

  ghost predicate CanRun(m: Machine, turns: seq<Turn>)
    decreases |turns|, 0
  {
    turns == [] ||
    (CanRun(m, turns[..|turns| - 1]) && CanTurn(RunFrom(m, turns[..|turns| - 1]), turns[|turns| - 1]))
  }

  ghost function RunFrom(m: Machine, turns: seq<Turn>): Machine
    requires CanRun(m, turns)
    decreases |turns|, 1
  {
    if turns == [] then m else Take(RunFrom(m, turns[..|turns| - 1]), turns[|turns| - 1])
  }

  lemma OneMore(m: Machine, turns: seq<Turn>, turn: Turn)
    requires CanRun(m, turns) && CanTurn(RunFrom(m, turns), turn)
    ensures CanRun(m, turns + [turn]) && RunFrom(m, turns + [turn]) == Take(RunFrom(m, turns), turn)
  {
    assert (turns + [turn])[..|turns|] == turns;
  }

  // ---------- one delivery by itself ----------

  predicate Over(s: Stage) {
    s.Answered? || s.Dead?
  }

  function StagesLeft(s: Stage): nat {
    match s
    case Arrived => 4
    case Known => 3
    case Cleared => 2
    case Applied(_) => 1
    case _ => 0
  }

  function NextMove(s: Stage, now: Time, freshId: Id, faults: Faults): Move {
    match s
    case Arrived => Registering(!faults.register)
    case Known => Asking(!faults.ask)
    case Cleared => Committing(now, freshId, !faults.transact)
    case Applied(_) => Marking(!faults.mark)
    case _ => Dying
  }

  /** All that is left of a delivery, with nothing in between. */
  ghost function Finish(db: Tables, d: Delivery, now: Time, freshId: Id, faults: Faults): (Tables, Option<Error>)
    decreases StagesLeft(d.stage)
  {
    if Over(d.stage) then (db, if d.stage.Answered? then d.stage.answer else None)
    else
      var (after, s) := Moved(db, d, NextMove(d.stage, now, freshId, faults));
      Finish(after, d.(stage := s), now, freshId, faults)
  }

  /** The tables after n more statements. */
  ghost function Partly(db: Tables, d: Delivery, now: Time, freshId: Id, n: nat): Tables
    decreases n
  {
    if n == 0 || Over(d.stage) then db
    else
      var (after, s) := Moved(db, d, NextMove(d.stage, now, freshId, UNDISTURBED));
      Partly(after, d.(stage := s), now, freshId, n - 1)
  }

  lemma FinishApplied(db: Tables, ev: Envelope, error: Option<Error>, now: Time, freshId: Id, faults: Faults)
    ensures Finish(db, Delivery(ev, Applied(error)), now, freshId, faults)
         == if faults.mark then (db, if error.Some? then error else Some(Store))
            else (Mark(db, KeyOf(ev), Outcome(error)), error)
  {
  }

  lemma FinishCleared(db: Tables, ev: Envelope, now: Time, freshId: Id, faults: Faults)
    ensures var r := Transact(db, ev, now, freshId, faults.transact);
            Finish(db, Delivery(ev, Cleared), now, freshId, faults)
            == if faults.mark then (Effect(db, r), Some(if r.Ok? then Store else r.error))
               else (Mark(Effect(db, r), KeyOf(ev), Outcome(ErrorOf(r))), ErrorOf(r))
  {
    var r := Transact(db, ev, now, freshId, faults.transact);
    FinishApplied(Effect(db, r), ev, ErrorOf(r), now, freshId, faults);
  }

  lemma FinishKnown(db: Tables, ev: Envelope, now: Time, freshId: Id, faults: Faults)
    ensures Finish(db, Delivery(ev, Known), now, freshId, faults)
         == if faults.ask then (db, Some(Store))
            else if AlreadyProcessed(db, KeyOf(ev)) then (db, None)
            else Finish(db, Delivery(ev, Cleared), now, freshId, faults)
  {
  }

  /** With nothing in between, the statements of a delivery are the whole delivery, whichever of them fail. */
  lemma UndisturbedIsDeliver(db: Tables, ev: Envelope, now: Time, freshId: Id, faults: Faults)
    requires WellFormed(ev)
    ensures Finish(db, Delivery(ev, Arrived), now, freshId, faults) == Deliver(db, ev, now, freshId, faults)
  {
    var key := KeyOf(ev);
    if !faults.register {
      if key in db.events {
        FinishKnown(db, ev, now, freshId, faults);
        FinishCleared(db, ev, now, freshId, faults);
      } else {
        FinishCleared(Register(db, key), ev, now, freshId, faults);
      }
    }
  }

  lemma PartlyCleared(db: Tables, ev: Envelope, now: Time, freshId: Id, n: nat)
    ensures var r := ApplyWebhook(db, ev, now, freshId);
            Partly(db, Delivery(ev, Cleared), now, freshId, n)
            == if n == 0 then db else if n == 1 then Effect(db, r)
               else Mark(Effect(db, r), KeyOf(ev), Outcome(ErrorOf(r)))
  {
    if n > 0 {
      var r := ApplyWebhook(db, ev, now, freshId);
      var d := Delivery(ev, Applied(ErrorOf(r)));
      assert Moved(db, Delivery(ev, Cleared), Committing(now, freshId, true)) == (Effect(db, r), d.stage);
      if n > 1 {
        var (after, s) := Moved(Effect(db, r), d, Marking(true));
        assert Partly(after, d.(stage := s), now, freshId, n - 2) == after;
      }
    }
  }

  /** Wherever a delivery's process dies, the tables are those of a delivery whose next statements fail. */
  lemma DeathIsAFault(db: Tables, ev: Envelope, now: Time, freshId: Id, n: nat) returns (faults: Faults)
    requires WellFormed(ev)
    ensures Partly(db, Delivery(ev, Arrived), now, freshId, n) == Deliver(db, ev, now, freshId, faults).0
  {
    var key := KeyOf(ev);
    if n == 0 {
      faults := Faults(true, false, false, false);
    } else if key !in db.events {
      PartlyCleared(Register(db, key), ev, now, freshId, n - 1);
      faults := Faults(false, false, n == 1, n <= 2);
    } else if n == 1 {
      faults := Faults(false, true, false, false);
    } else {
      var d := Delivery(ev, Known);
      var (after, s) := Moved(db, d, Asking(true));
      assert after == db && Partly(db, d, now, freshId, n - 1) == Partly(db, d.(stage := s), now, freshId, n - 2);
      if !AlreadyProcessed(db, key) {
        PartlyCleared(db, ev, now, freshId, n - 2);
      }
      faults := Faults(false, false, n == 2, n <= 3);
    }
  }

  // ---------- one way only ----------

  /** A delivery arrives well formed or is refused; it can die until it has answered. */
  lemma ArrivingAndDying(m: Machine, ev: Envelope, d: Delivery)
    ensures var t := Take(m, Arrive(ev));
            && t.db == m.db && t.committed == m.committed
            && t.deliveries == m.deliveries + [Delivery(ev, if (ev.eventId == "" && ev.id == "") || ev.kind == Unlisted("")
                                                            then Answered(Some(Unprocessable)) else Arrived)]
    ensures CanMove(d, Dying) <==> d.stage.Arrived? || d.stage.Known? || d.stage.Cleared? || d.stage.Applied?
    ensures CanMove(d, Dying) ==> Moved(m.db, d, Dying) == (m.db, Dead)
  {
  }

  /** Every statement takes its delivery further, and after the last there is none. */
  lemma StatementsGoForward(db: Tables, d: Delivery, move: Move)
    requires CanMove(d, move)
    ensures StagesLeft(Moved(db, d, move).1) < StagesLeft(d.stage)
    ensures move.Committing? ==> Moved(db, d, move).1.Applied?
  {
  }

  function Transacted(turns: seq<Turn>, i: nat): nat {
    if turns == [] then 0
    else
      var last := turns[|turns| - 1];
      Transacted(turns[..|turns| - 1], i) + if last.Advance? && last.i == i && last.move.Committing? then 1 else 0
  }

  /** So in any run a delivery runs its transaction at most once. */
  lemma {:induction false} TransactsOnce(m: Machine, turns: seq<Turn>, i: nat)
    requires CanRun(m, turns) && i < |m.deliveries|
    ensures i < |RunFrom(m, turns).deliveries|
    ensures Transacted(turns, i) <= 1
    ensures Transacted(turns, i) == 1 ==> StagesLeft(RunFrom(m, turns).deliveries[i].stage) <= 1
    decreases |turns|
  {
    if turns != [] {
      var before, last := turns[..|turns| - 1], turns[|turns| - 1];
      TransactsOnce(m, before, i);
      if last.Advance? {
        StatementsGoForward(RunFrom(m, before).db, RunFrom(m, before).deliveries[last.i], last.move);
      }
    }
  }
}

/**
 * One job's event log as a step relation: emitters take a number, insert the event
 * and then wake the readers; readers subscribe, replay from the log, send, and park
 * on a one-slot channel (pkg/job/manager.go emit and nextSeq, pkg/job/broker.go,
 * Stream and drain in pkg/handler/job_handler.go). All of it interleaves freely,
 * inserts may fail, clients may disconnect and resume, the process may restart.
 */
module EventStream {
  import opened Common

  datatype Emitter =
    | Quiet
    | Numbered(num: nat)  // has its number, has not inserted
    | Inserted(num: nat)  // has inserted, has not called Notify

  datatype Pc =
    | Off                                   // not connected
    | Reading                               // subscribed, about to query the log
    | Sending(rest: seq<nat>, full: bool)   // has a batch; a full one means another query
    | Drained                               // about to look at the job status and park
    | Parked                                // in the select

  /**
   * `lastSeq` travels as Last-Event-ID; `received` is what the client has seen, across reconnects, since
   * it last had to start from the beginning.
   */
  datatype Reader = Reader(pc: Pc, lastSeq: nat, token: bool, received: seq<nat>)

  /** `log` holds the stored numbers in insertion order; the flag remembers the past. */
  datatype State = State(
    counter: Option<nat>, log: seq<nat>, emitters: seq<Emitter>, readers: seq<Reader>,
    low: bool)  // a counter was once created below the stored maximum

  datatype Action =
    | Take(e: nat, ok: bool)         // next number; ok when the stored maximum could be read
    | Insert(e: nat, ok: bool)
    | Notify(e: nat)
    | NotifyOnly                     // a stop request wakes readers without an event
    | Dispose                        // the finished job gives its counter up
    | Restart
    | Connect(r: nat, fromStart: bool)   // an unreadable Last-Event-ID replays everything
    | Read(r: nat, batch: seq<nat>)
    | SendOne(r: nat)
    | Park(r: nat)
    | Wake(r: nat, signal: bool)     // by the channel, or by a timer
    | Disconnect(r: nat)

  /** The query's row limit. */
  const BATCH: nat := 200

  function MaxOf(log: seq<nat>): (m: nat)
    ensures forall i :: 0 <= i < |log| ==> log[i] <= m
    ensures log != [] ==> m in log
    ensures log == [] ==> m == 0
  {
    if log == [] then 0
    else
      var m := MaxOf(log[1..]);
      if |log| == 1 || log[0] > m then log[0] else m
  }

  ghost predicate Increasing(s: seq<nat>) {
    forall i, j :: 0 <= i < j < |s| ==> s[i] < s[j]
  }

  /** ORDER BY seq LIMIT BATCH over the rows above `last`. */
  ghost predicate IsBatch(log: seq<nat>, last: nat, batch: seq<nat>) {
    && Increasing(batch) && |batch| <= BATCH
    && (forall i :: 0 <= i < |batch| ==> batch[i] in log && batch[i] > last)
    && (forall n :: n in log && n > last && n !in batch ==> |batch| == BATCH && n > batch[BATCH - 1])
  }

  predicate Awake(pc: Pc) {
    !pc.Off?
  }

  function Initial(emitters: nat, readers: nat): State {
    State(None, [], seq(emitters, _ => Quiet), seq(readers, _ => Reader(Off, 0, false, [])), false)
  }

  ghost predicate Enabled(s: State, a: Action) {
    match a
    case Take(e, _) => e < |s.emitters| && s.emitters[e].Quiet?
    case Insert(e, _) => e < |s.emitters| && s.emitters[e].Numbered?
    case Notify(e) => e < |s.emitters| && s.emitters[e].Inserted?
    case NotifyOnly => true
    case Dispose => forall e :: 0 <= e < |s.emitters| ==> s.emitters[e].Quiet?
    case Restart => true
    case Connect(r, _) => r < |s.readers| && s.readers[r].pc.Off?
    case Read(r, batch) => r < |s.readers| && s.readers[r].pc.Reading? && IsBatch(s.log, s.readers[r].lastSeq, batch)
    case SendOne(r) => r < |s.readers| && s.readers[r].pc.Sending? && s.readers[r].pc.rest != []
    case Park(r) => r < |s.readers| && s.readers[r].pc.Drained?
    case Wake(r, signal) => r < |s.readers| && s.readers[r].pc.Parked? && (signal ==> s.readers[r].token)
    case Disconnect(r) => r < |s.readers| && Awake(s.readers[r].pc)
  }

  /** A batch shorter than the limit ends the drain, a full one asks again, an empty one ends it at once. */
  function AfterSending(rest: seq<nat>, full: bool): Pc {
    if rest != [] then Sending(rest, full) else if full then Reading else Drained
  }

  function WakeAll(readers: seq<Reader>): seq<Reader> {
    seq(|readers|, i requires 0 <= i < |readers| =>
      if Awake(readers[i].pc) then readers[i].(token := true) else readers[i])
  }

  function Unplug(readers: seq<Reader>): seq<Reader> {
    seq(|readers|, i requires 0 <= i < |readers| => readers[i].(pc := Off, token := false))
  }

  ghost function Apply(s: State, a: Action): State
    requires Enabled(s, a)
  {
    match a
    case Take(e, ok) =>
      var base := if s.counter.Some? then s.counter.value else if ok then MaxOf(s.log) else 0;
      s.(counter := Some(base + 1), emitters := s.emitters[e := Numbered(base + 1)],
         low := s.low || (s.counter.None? && base < MaxOf(s.log)))
    case Insert(e, ok) =>
      var n := s.emitters[e].num;
      if ok && n !in s.log
      then s.(log := s.log + [n], emitters := s.emitters[e := Inserted(n)])
      else s.(emitters := s.emitters[e := Quiet])
    case Notify(e) => s.(emitters := s.emitters[e := Quiet], readers := WakeAll(s.readers))
    case NotifyOnly => s.(readers := WakeAll(s.readers))
    case Dispose => s.(counter := None)
    case Restart => s.(counter := None, emitters := seq(|s.emitters|, _ => Quiet), readers := Unplug(s.readers))
    case Connect(r, fromStart) =>
      var x := s.readers[r].(pc := Reading, token := false);
      s.(readers := s.readers[r := if fromStart then x.(lastSeq := 0, received := []) else x])
    case Read(r, batch) =>
      s.(readers := s.readers[r := s.readers[r].(pc := AfterSending(batch, |batch| == BATCH))])
    case SendOne(r) =>
      var x := s.readers[r];
      s.(readers := s.readers[r := x.(lastSeq := x.pc.rest[0], received := x.received + [x.pc.rest[0]],
                                      pc := AfterSending(x.pc.rest[1..], x.pc.full))])
    case Park(r) => s.(readers := s.readers[r := s.readers[r].(pc := Parked)])
    case Wake(r, signal) =>
      s.(readers := s.readers[r := s.readers[r].(pc := Reading, token := if signal then false else s.readers[r].token)])
    case Disconnect(r) => s.(readers := s.readers[r := s.readers[r].(pc := Off, token := false)])
  }

  ghost predicate CanRun(s: State, actions: seq<Action>)
    decreases |actions|
  {
    actions == [] || (Enabled(s, actions[0]) && CanRun(Apply(s, actions[0]), actions[1..]))
  }

  ghost function RunFrom(s: State, actions: seq<Action>): State
    requires CanRun(s, actions)
    decreases |actions|
  {
    if actions == [] then s else RunFrom(Apply(s, actions[0]), actions[1..])
  }

  // ---------- the invariant ----------

  /** Numbers on the way to the store come from the one counter and are different. */
  ghost predicate InFlight(s: State) {
    && (forall e :: 0 <= e < |s.emitters| && !s.emitters[e].Quiet? ==>
          s.counter.Some? && s.emitters[e].num <= s.counter.value)
    && (forall e, f :: 0 <= e < f < |s.emitters| && s.emitters[e].Numbered? && s.emitters[f].Numbered? ==>
          s.emitters[e].num != s.emitters[f].num)
  }

  /** An insert whose number is stored already will be refused. */
  ghost predicate Colliding(s: State) {
    exists e :: 0 <= e < |s.emitters| && s.emitters[e].Numbered? && s.emitters[e].num in s.log
  }

  /** Unless a counter was ever created below the stored maximum, numbers to be stored are all new. */
  ghost predicate Numbering(s: State) {
    && (s.counter.Some? ==> MaxOf(s.log) <= s.counter.value)
    && !Colliding(s)
  }

  /** With a single emitter a number is above everything stored until it is stored itself. */
  ghost predicate Alone(s: State) {
    && Increasing(s.log)
    && (forall e :: 0 <= e < |s.emitters| && s.emitters[e].Numbered? ==> MaxOf(s.log) < s.emitters[e].num)
  }

  ghost predicate Positive(s: State) {
    && (forall i :: 0 <= i < |s.log| ==> 1 <= s.log[i])
    && (forall e :: 0 <= e < |s.emitters| && !s.emitters[e].Quiet? ==> 1 <= s.emitters[e].num)
  }

  ghost predicate Distinct(log: seq<nat>) {
    forall i, j :: 0 <= i < j < |log| ==> log[i] != log[j]
  }

  /** Received, and on the way in the current batch. */
  function Ahead(r: Reader): seq<nat> {
    r.received + if r.pc.Sending? then r.pc.rest else []
  }

  /** The highest number the reader will have sent when its current batch is out. */
  function Horizon(r: Reader): nat {
    if r.pc.Sending? && r.pc.rest != [] then r.pc.rest[|r.pc.rest| - 1] else r.lastSeq
  }

  /** Past its last query of the drain: it will park unless woken. */
  predicate Settling(pc: Pc) {
    pc.Drained? || pc.Parked? || (pc.Sending? && !pc.full)
  }

  ghost predicate AboutToNotify(emitters: seq<Emitter>, n: nat) {
    exists e :: 0 <= e < |emitters| && emitters[e] == Inserted(n)
  }

  /** A settling reader has a token, or every stored number above its horizon still has its Notify to come. */
  ghost predicate WakeupsPending(log: seq<nat>, emitters: seq<Emitter>, r: Reader) {
    Settling(r.pc) && !r.token ==> forall n :: n in log && n > Horizon(r) ==> AboutToNotify(emitters, n)
  }

  /** What a client has seen is increasing, stored, and consistent with its resume position. */
  ghost predicate Progress(log: seq<nat>, r: Reader) {
    && r.lastSeq == (if r.received == [] then 0 else r.received[|r.received| - 1])
    && Increasing(Ahead(r))
    && (forall i :: 0 <= i < |Ahead(r)| ==> Ahead(r)[i] in log)
    && (r.pc.Sending? ==> r.pc.rest != [])
  }

  ghost predicate Inv(s: State) {
    && Positive(s)
    && Distinct(s.log)
    && InFlight(s)
    && (!s.low ==> Numbering(s))
    && (!s.low && |s.emitters| == 1 ==> Alone(s))
    && forall r :: 0 <= r < |s.readers| ==>
         && WakeupsPending(s.log, s.emitters, s.readers[r])
         && Progress(s.log, s.readers[r])
         && (Increasing(s.log) ==> Ahead(s.readers[r]) <= s.log)
  }
}

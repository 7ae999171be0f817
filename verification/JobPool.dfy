/**
 * The worker pool of one batch job as a step relation (pkg/job/worker.go and the
 * job statements of pkg/job/manager.go): a dispatcher hands items to workers over
 * an unbuffered queue, workers poll for a stop request, bump counters in memory
 * and in the store, and the last one out writes the terminal status. Any worker
 * may move at any time, any store write may fail, the process may be shut down or
 * die anywhere.
 */
module JobPool {
  import opened Common

  datatype JobStatus = Pending | Running | Stopping | Succeeded | Partial | Failed | Stopped | Interrupted

  datatype RowStatus = RowPending | RowRunning | RowSuccess | RowFailed | RowSkipped

  /** What a runner reports; an empty report counts as a failure. */
  datatype Outcome = Success | Failure | Skip

  datatype Report = Reported(outcome: Outcome) | NoReport

  /** How far the worker that holds an item has come with it. */
  datatype Place =
    | Waiting                     // still in the dispatcher's list
    | Received                    // about to ask whether to stop
    | Cleared                     // was told to go on, about to look at its context
    | Starting                    // about to mark the row running and call the runner
    | InRun                       // inside the runner
    | Ran(outcome: Outcome)       // about to write the row
    | Recorded(outcome: Outcome)  // about to bump the counter in memory
    | Counted(outcome: Outcome)   // about to bump the stored counter
    | Finished(outcome: Outcome)
    | StopSeen                    // was told to stop, about to raise the flag
    | StopFlagged                 // about to bump the skipped counter
    | StopCounted                 // about to write the row
    | StopSkipped
    | Dropped                     // the worker left because of shutdown

  datatype Worker = Idle | Busy(item: nat) | Gone

  /** The goroutine that owns the job. */
  datatype Phase = Unstarted | Loading | Sending | Closed | Ended | Dead

  /** The counters in memory, the stop flag, and the job's rows in the store; `faults` counts failed writes. */
  datatype Books = Books(
    success: nat, failed: nat, skipped: nat, stopped: bool,
    storedSuccess: nat, storedFailed: nat, rows: seq<RowStatus>, faults: nat)

  /** Since a stop request landed on the running job: runs begun, and status reads that failed. */
  datatype Watch = Watch(landed: bool, runs: nat, blind: nat)

  /** `runs` and `reports` remember how often each item was run and what its runner said. */
  datatype State = State(
    status: JobStatus, phase: Phase, starts: nat, cancelled: bool,
    sent: nat, workers: seq<Worker>, place: seq<Place>, runs: seq<nat>, reports: seq<Option<Report>>,
    books: Books, watch: Watch)

  datatype Action =
    | TryStart(ok: bool)            // UPDATE ... WHERE status = 'pending', by any number of attempts
    | Load(ok: bool)                // read the pending items
    | FailLoad(ok: bool)            // mark the job failed after a failed read
    | Send(w: nat)
    | Close
    | Check(w: nat, ok: bool)       // read the job status
    | Proceed(w: nat)               // look at the context
    | Begin(w: nat, ok: bool)       // mark the row running and enter the runner
    | Return(w: nat, report: Report)
    | Record(w: nat, ok: bool)
    | Count(w: nat)
    | Store(w: nat, ok: bool)
    | RaiseFlag(w: nat)
    | CountSkip(w: nat)
    | RecordSkip(w: nat, ok: bool)
    | Leave(w: nat)
    | Finish(ok: bool)
    | RequestStop
    | Shutdown
    | Crash
    | Reap

  function Initial(n: nat, workers: nat): State {
    State(Pending, Unstarted, 0, false, 0, seq(workers, _ => Idle), seq(n, _ => Waiting), seq(n, _ => 0), seq(n, _ => None),
          Books(0, 0, 0, false, 0, 0, seq(n, _ => RowPending), 0), Watch(false, 0, 0))
  }

  predicate Terminal(status: JobStatus) {
    !status.Pending? && !status.Running? && !status.Stopping?
  }

  predicate Alive(phase: Phase) {
    phase.Loading? || phase.Sending? || phase.Closed?
  }

  predicate At(s: State, w: nat, p: Place) {
    && (s.phase.Sending? || s.phase.Closed?) && w < |s.workers| && s.workers[w].Busy?
    && s.workers[w].item < |s.place| && s.place[s.workers[w].item] == p
  }

  /** The worker is busy with an item at a place of this kind, and its write may only succeed before shutdown. */
  predicate Enabled(s: State, a: Action) {
    match a
    case TryStart(ok) => !s.phase.Dead? && (ok ==> !s.cancelled)
    case Load(ok) => s.phase.Loading? && ok && !s.cancelled
    case FailLoad(ok) => s.phase.Loading? && (ok ==> !s.cancelled)
    case Send(w) => s.phase.Sending? && s.sent < |s.place| && w < |s.workers| && s.workers[w].Idle?
    case Close => s.phase.Sending? && (s.sent == |s.place| || s.cancelled)
    case Check(w, ok) => At(s, w, Received) && (ok ==> !s.cancelled)
    case Proceed(w) => At(s, w, Cleared)
    case Begin(w, ok) => At(s, w, Starting) && (ok ==> !s.cancelled)
    case Return(w, _) => At(s, w, InRun)
    case Record(w, ok) => (At(s, w, Ran(Success)) || At(s, w, Ran(Failure)) || At(s, w, Ran(Skip))) && (ok ==> !s.cancelled)
    case Count(w) => At(s, w, Recorded(Success)) || At(s, w, Recorded(Failure)) || At(s, w, Recorded(Skip))
    case Store(w, ok) => (At(s, w, Counted(Success)) || At(s, w, Counted(Failure)) || At(s, w, Counted(Skip))) && (ok ==> !s.cancelled)
    case RaiseFlag(w) => At(s, w, StopSeen)
    case CountSkip(w) => At(s, w, StopFlagged)
    case RecordSkip(w, ok) => At(s, w, StopCounted) && (ok ==> !s.cancelled)
    case Leave(w) => (s.phase.Closed? || (s.phase.Sending? && s.cancelled)) && w < |s.workers| && s.workers[w].Idle?
    case Finish(ok) => s.phase.Closed? && (forall w :: 0 <= w < |s.workers| ==> s.workers[w].Gone?) && (ok ==> !s.cancelled)
    case RequestStop => true
    case Shutdown => true
    case Crash => true
    case Reap => s.phase.Dead?
  }

  function RowOf(o: Outcome): RowStatus {
    match o
    case Success => RowSuccess
    case Failure => RowFailed
    case Skip => RowSkipped
  }

  function OutcomeOf(r: Report): Outcome {
    if r.NoReport? then Failure else r.outcome
  }

  /** The switch at the end of a job. */
  function FinalStatus(success: nat, failed: nat, stopped: bool): JobStatus {
    if stopped then Stopped
    else if failed > 0 && success == 0 then Failed
    else if failed > 0 then Partial
    else Succeeded
  }

  function WriteRow(b: Books, i: nat, row: RowStatus, ok: bool): Books {
    if ok && i < |b.rows| then b.(rows := b.rows[i := row]) else b.(faults := b.faults + 1)
  }

  function CountOutcome(b: Books, o: Outcome): Books {
    match o
    case Success => b.(success := b.success + 1)
    case Failure => b.(failed := b.failed + 1)
    case Skip => b.(skipped := b.skipped + 1)
  }

  /** Relative updates of the job's own row; a skipped item has none. */
  function StoreOutcome(b: Books, o: Outcome, ok: bool): Books {
    if o.Skip? then b
    else if !ok then b.(faults := b.faults + 1)
    else if o.Success? then b.(storedSuccess := b.storedSuccess + 1)
    else b.(storedFailed := b.storedFailed + 1)
  }

  /** The worker takes its item to p and goes on as `next`. */
  function Move(s: State, w: nat, p: Place, next: Worker, books: Books): State
    requires w < |s.workers| && s.workers[w].Busy? && s.workers[w].item < |s.place|
  {
    s.(place := s.place[s.workers[w].item := p], workers := s.workers[w := next], books := books)
  }

  function Apply(s: State, a: Action): State
    requires Enabled(s, a)
  {
    match a
    case TryStart(ok) =>
      if ok && s.status.Pending? then s.(status := Running, phase := Loading, starts := s.starts + 1) else s
    case Load(_) => s.(phase := Sending)
    case FailLoad(ok) => s.(phase := Ended, status := if ok then Failed else s.status)
    case Send(w) => s.(sent := s.sent + 1, workers := s.workers[w := Busy(s.sent)], place := s.place[s.sent := Received])
    case Close => s.(phase := Closed)
    case Check(w, ok) =>
      if ok && s.status.Stopping? then Move(s, w, StopSeen, s.workers[w], s.books)
      else Move(s, w, Cleared, s.workers[w], s.books).(
             watch := s.watch.(blind := s.watch.blind + if s.watch.landed && !ok then 1 else 0))
    case Proceed(w) =>
      if s.cancelled then Move(s, w, Dropped, Gone, s.books) else Move(s, w, Starting, s.workers[w], s.books)
    case Begin(w, ok) =>
      var i := s.workers[w].item;
      Move(s, w, InRun, s.workers[w], WriteRow(s.books, i, RowRunning, ok)).(
        runs := if i < |s.runs| then s.runs[i := s.runs[i] + 1] else s.runs,
        watch := s.watch.(runs := s.watch.runs + if s.watch.landed then 1 else 0))
    case Return(w, report) =>
      var i := s.workers[w].item;
      Move(s, w, Ran(OutcomeOf(report)), s.workers[w], s.books).(
        reports := if i < |s.reports| then s.reports[i := Some(report)] else s.reports)
    case Record(w, ok) =>
      var o := s.place[s.workers[w].item].outcome;
      Move(s, w, Recorded(o), s.workers[w], WriteRow(s.books, s.workers[w].item, RowOf(o), ok))
    case Count(w) =>
      var o := s.place[s.workers[w].item].outcome;
      Move(s, w, Counted(o), s.workers[w], CountOutcome(s.books, o))
    case Store(w, ok) =>
      var o := s.place[s.workers[w].item].outcome;
      Move(s, w, Finished(o), Idle, StoreOutcome(s.books, o, ok))
    case RaiseFlag(w) => Move(s, w, StopFlagged, s.workers[w], s.books.(stopped := true))
    case CountSkip(w) => Move(s, w, StopCounted, s.workers[w], s.books.(skipped := s.books.skipped + 1))
    case RecordSkip(w, ok) => Move(s, w, StopSkipped, Idle, WriteRow(s.books, s.workers[w].item, RowSkipped, ok))
    case Leave(w) => s.(workers := s.workers[w := Gone])
    case Finish(ok) =>
      s.(phase := Ended,
         status := if ok then FinalStatus(s.books.success, s.books.failed, s.books.stopped) else s.status)
    case RequestStop =>
      if s.status.Running? then s.(status := Stopping, watch := Watch(true, 0, 0))
      else if s.status.Pending? then s.(status := Stopping)
      else s
    case Shutdown => s.(cancelled := true)
    case Crash => s.(phase := Dead)
    case Reap => if s.status.Running? || s.status.Stopping? then s.(status := Interrupted) else s
  }

  /** A run: actions taken one after the other, each enabled when taken. */
  predicate CanRun(s: State, actions: seq<Action>)
    decreases |actions|
  {
    actions == [] || (Enabled(s, actions[0]) && CanRun(Apply(s, actions[0]), actions[1..]))
  }

  function RunFrom(s: State, actions: seq<Action>): State
    requires CanRun(s, actions)
    decreases |actions|
  {
    if actions == [] then s else RunFrom(Apply(s, actions[0]), actions[1..])
  }
}

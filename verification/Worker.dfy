/** The batching worker of one table as a state machine: what each select does to the
    buffer, the mutex, the write in flight and the writes done, and what that means for
    every run. */
module Worker {
  import opened Telemetry
  import opened Rows

  /** A message with the context it was received under; contexts tell messages apart. */
  datatype Wrapped = Wrapped(ctx: nat, msg: GameTelemetry)

  /** One attempted COPY: the messages whose rows it held, and whether it succeeded. */
  datatype Batch = Batch(rows: seq<Wrapped>, ok: bool)

  /** `Writing` is inside `writeBatch`; `last` if the worker stops after it. A worker is
      `Deadlocked` when it waits for a mutex that it holds itself, and `Crashed` when
      building a row dereferenced nil. */
  datatype Phase =
    | Selecting
    | Writing(batch: seq<Wrapped>, last: bool)
    | Stopped
    | Deadlocked
    | Crashed

  datatype Worker = Worker(
    table: Kind,
    batchSize: int,
    phase: Phase,
    lockHeld: bool,
    buffer: seq<Wrapped>,
    log: seq<Batch>,
    spawned: seq<Wrapped>)

  function NewWorker(table: Kind, batchSize: int): Worker {
    Worker(table, batchSize, Selecting, false, [], [], [])
  }

  /** What a select can yield. */
  datatype Choice = Cancelled | Closed | Tick | Received(m: Wrapped)

  predicate IsLap(m: Wrapped) {
    m.msg.data.LapTimesDataOf?
  }

  /** `flush`, up to the write. */
  function Flush(w: Worker, last: bool): Worker {
    if w.lockHeld then w.(phase := Deadlocked)
    else if w.buffer == [] then w.(phase := if last then Stopped else Selecting)
    else w.(buffer := [], phase := Writing(w.buffer, last))
  }

  /** One iteration of `flusherWorker`, up to the write that it may start. A message whose
      row cannot be built is skipped with the mutex still held. */
  function Select(w: Worker, c: Choice): Worker
    requires w.phase == Selecting
  {
    match c
    case Cancelled => Flush(w, true)
    case Closed => Flush(w, true)
    case Tick => Flush(w, false)
    case Received(m) =>
      if IsLap(m) then w.(spawned := w.spawned + [m])
      else if w.lockHeld then w.(phase := Deadlocked)
      else
        match BuildRow(m.msg, w.table)
        case NotBuilt => w.(lockHeld := true)
        case NilPanic => w.(lockHeld := true, phase := Crashed)
        case Built(_) =>
          var w' := w.(buffer := w.buffer + [m]);
          if |w'.buffer| >= w.batchSize then Flush(w', false) else w'
  }

  /** The write returns. */
  function Finish(w: Worker, ok: bool): Worker
    requires w.phase.Writing?
  {
    w.(log := w.log + [Batch(w.phase.batch, ok)], phase := if w.phase.last then Stopped else Selecting)
  }

  /** A whole iteration, with the write's outcome. A worker that is not selecting has
      ended. */
  function React(w: Worker, c: Choice, ok: bool): Worker {
    if w.phase != Selecting then w
    else
      var w' := Select(w, c);
      if w'.phase.Writing? then Finish(w', ok) else w'
  }

  datatype Event = Event(choice: Choice, ok: bool)

  function Run(w: Worker, es: seq<Event>): Worker {
    if es == [] then w
    else React(Run(w, es[..|es| - 1]), es[|es| - 1].choice, es[|es| - 1].ok)
  }

  // ---- what a state amounts to -----------------------------------------------

  function Attempted(log: seq<Batch>): seq<Wrapped> {
    if log == [] then [] else Attempted(log[..|log| - 1]) + log[|log| - 1].rows
  }

  /** The rows that reached the table: the batches whose write succeeded. */
  function Written(log: seq<Batch>): seq<Wrapped> {
    if log == [] then []
    else Written(log[..|log| - 1]) + if log[|log| - 1].ok then log[|log| - 1].rows else []
  }

  function Lost(log: seq<Batch>): seq<Wrapped> {
    if log == [] then []
    else Lost(log[..|log| - 1]) + if log[|log| - 1].ok then [] else log[|log| - 1].rows
  }

  function Failures(log: seq<Batch>): nat {
    if log == [] then 0 else Failures(log[..|log| - 1]) + if log[|log| - 1].ok then 0 else 1
  }

  function InFlight(w: Worker): seq<Wrapped> {
    if w.phase.Writing? then w.phase.batch else []
  }

  /** Every row the worker ever took, in order. */
  function Contents(w: Worker): seq<Wrapped> {
    Attempted(w.log) + InFlight(w) + w.buffer
  }

  function Cap(w: Worker): (cap: nat)
    ensures cap >= 1
  {
    if w.batchSize > 1 then w.batchSize else 1
  }

  predicate Sized(batch: seq<Wrapped>, w: Worker) {
    1 <= |batch| <= Cap(w)
  }

  /** At every select the buffer is below the batch size, and every batch that was ever
      given to `writeBatch` holds between one row and a full batch. */
  predicate Bounded(w: Worker) {
    && |w.buffer| < Cap(w)
    && (w.phase.Writing? ==> Sized(w.phase.batch, w) && w.buffer == [])
    && (forall i | 0 <= i < |w.log| :: Sized(w.log[i].rows, w))
  }

  predicate Running(w: Worker) {
    !w.lockHeld && (w.phase == Selecting || w.phase.Writing? || w.phase == Stopped)
  }

  // ---- one step --------------------------------------------------------------

  predicate HasRow(m: Wrapped, table: Kind) {
    BuildRow(m.msg, table).Built?
  }

  /** The messages that a worker can take without harm. */
  predicate Harmless(m: Wrapped, table: Kind) {
    IsLap(m) || HasRow(m, table)
  }

  /** What one select adds to the rows taken, and to the lap writers started. */
  function RowTaken(c: Choice, table: Kind): seq<Wrapped> {
    if c.Received? && !IsLap(c.m) && HasRow(c.m, table) then [c.m] else []
  }

  function LapTaken(c: Choice): seq<Wrapped> {
    if c.Received? && IsLap(c.m) then [c.m] else []
  }

  lemma SelectKeeps(w: Worker, c: Choice)
    requires w.phase == Selecting && Bounded(w)
    ensures Bounded(Select(w, c))
    ensures Select(w, c).table == w.table && Select(w, c).batchSize == w.batchSize && Select(w, c).log == w.log
    ensures Select(w, c).spawned == w.spawned + LapTaken(c)
  {
    hide BuildRow;
  }

  /** With the mutex free, a select takes the message's row or lap, or, exactly if the
      message can be neither, leaves the mutex held. */
  lemma HealthySelect(w: Worker, c: Choice)
    requires w.phase == Selecting && !w.lockHeld
    ensures Contents(Select(w, c)) == Contents(w) + RowTaken(c, w.table)
    ensures Running(Select(w, c)) <==> (c.Received? ==> Harmless(c.m, w.table))
    ensures Select(w, c).lockHeld <==> !Running(Select(w, c))
    ensures c == Closed || c == Cancelled ==> EndsOf(Select(w, c))
    ensures c != Closed && c != Cancelled ==> !EndsOf(Select(w, c))
  {
    hide BuildRow;
    if c.Received? && HasRow(c.m, w.table) && !IsLap(c.m) {
      assert w.buffer + [c.m] != [];
    }
  }

  predicate EndsOf(w: Worker) {
    w.phase == Stopped || (w.phase.Writing? && w.phase.last)
  }

  lemma FinishKeeps(w: Worker, ok: bool)
    requires w.phase.Writing? && Bounded(w)
    ensures Bounded(Finish(w, ok))
    ensures Contents(Finish(w, ok)) == Contents(w)
    ensures Finish(w, ok).spawned == w.spawned && Finish(w, ok).lockHeld == w.lockHeld
    ensures Finish(w, ok).table == w.table && Finish(w, ok).batchSize == w.batchSize
  {
    assert (w.log + [Batch(w.phase.batch, ok)])[..|w.log|] == w.log;
  }

  lemma ReactKeeps(w: Worker, c: Choice, ok: bool)
    requires Bounded(w)
    ensures Bounded(React(w, c, ok))
    ensures React(w, c, ok).table == w.table && React(w, c, ok).batchSize == w.batchSize
    ensures w.phase == Selecting ==> React(w, c, ok).spawned == w.spawned + LapTaken(c)
    ensures !w.phase.Writing? ==> !React(w, c, ok).phase.Writing?
  {
    hide Select, Finish, Bounded;
    if w.phase == Selecting {
      SelectKeeps(w, c);
      if Select(w, c).phase.Writing? {
        FinishKeeps(Select(w, c), ok);
        FinishPhase(Select(w, c), ok);
      }
    }
  }

  lemma FinishPhase(w: Worker, ok: bool)
    requires w.phase.Writing?
    ensures Finish(w, ok).phase == if w.phase.last then Stopped else Selecting
    ensures Finish(w, ok).buffer == w.buffer
    ensures Finish(w, ok).log == w.log + [Batch(w.phase.batch, ok)]
  {
  }
}

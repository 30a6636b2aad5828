/** Every run of a table's worker: conservation, health, refinement of row-at-a-time
    writing, losses, and draining a closed channel. */
module WorkerRuns {
  import opened Products
  import opened Telemetry
  import opened Rows
  import opened Worker

  // ---- what a script delivers ------------------------------------------------

  /** The rows and the lap messages that the events deliver, in order. */
  function RowsOf(es: seq<Event>, table: Kind): seq<Wrapped> {
    if es == [] then [] else RowsOf(es[..|es| - 1], table) + RowTaken(es[|es| - 1].choice, table)
  }

  function LapsOf(es: seq<Event>): seq<Wrapped> {
    if es == [] then [] else LapsOf(es[..|es| - 1]) + LapTaken(es[|es| - 1].choice)
  }

  /** Neither a close nor a cancellation. */
  predicate Open(es: seq<Event>) {
    forall i | 0 <= i < |es| :: es[i].choice != Closed && es[i].choice != Cancelled
  }

  predicate AllHarmless(es: seq<Event>, table: Kind) {
    forall i | 0 <= i < |es| :: es[i].choice.Received? ==> Harmless(es[i].choice.m, table)
  }

  predicate AllOk(es: seq<Event>) {
    forall i | 0 <= i < |es| :: es[i].ok
  }

  // ---- conservation ----------------------------------------------------------

  /** A worker between two iterations, with its mutex free. */
  predicate Ready(w: Worker) {
    w.phase == Selecting && !w.lockHeld && Bounded(w)
  }

  lemma NewIsReady(table: Kind, batchSize: int)
    ensures Ready(NewWorker(table, batchSize))
    ensures Contents(NewWorker(table, batchSize)) == []
  {
  }

  lemma HealthyReact(w: Worker, c: Choice, ok: bool)
    requires Ready(w) && (c.Received? ==> Harmless(c.m, w.table))
    ensures Contents(React(w, c, ok)) == Contents(w) + RowTaken(c, w.table)
    ensures c != Closed && c != Cancelled ==> Ready(React(w, c, ok))
    ensures c == Closed || c == Cancelled ==> React(w, c, ok).phase == Stopped
    ensures !c.Received? ==> React(w, c, ok).buffer == []
    ensures React(w, c, ok).spawned == w.spawned + LapTaken(c)
    ensures React(w, c, ok).table == w.table && React(w, c, ok).batchSize == w.batchSize
  {
    hide Select, Finish, BuildRow;
    SelectKeeps(w, c);
    HealthySelect(w, c);
    ReactKeeps(w, c, ok);
    var w' := Select(w, c);
    if w'.phase.Writing? {
      FinishKeeps(w', ok);
      FinishPhase(w', ok);
    } else if !c.Received? {
      NothingToFlush(w, c);
    }
  }

  lemma NothingToFlush(w: Worker, c: Choice)
    requires w.phase == Selecting && !c.Received?
    ensures Select(w, c).phase == Stopped || (!w.lockHeld && Select(w, c).phase == Selecting) ==> Select(w, c).buffer == []
  {
  }

  /** A tick leaves nothing in the buffer: every row taken so far has been attempted. */
  lemma TickFlushes(table: Kind, batchSize: int, es: seq<Event>, ok: bool)
    requires Open(es) && AllHarmless(es, table)
    ensures var w := Run(NewWorker(table, batchSize), es + [Event(Tick, ok)]);
            Ready(w) && w.buffer == [] && Attempted(w.log) == RowsOf(es, table)
  {
    hide React, Harmless, Bounded, Attempted;
    var new', all := NewWorker(table, batchSize), es + [Event(Tick, ok)];
    assert all[..|es|] == es;
    NewIsReady(table, batchSize);
    RunConserves(new', es);
    HealthyReact(Run(new', es), Tick, ok);
    NoRowTaken(Tick, table);
    var w := Run(new', all);
    assert Contents(w) == Attempted(w.log);
    assert [] + RowsOf(es, table) == RowsOf(es, table) && RowsOf(es, table) + [] == RowsOf(es, table);
  }

  /** From any ready state, and whatever the writes' outcomes, the worker stays ready and
      holds exactly what it held plus every row delivered, each once and in order. */
  lemma {:induction false} RunConserves(w: Worker, es: seq<Event>)
    requires Ready(w) && Open(es) && AllHarmless(es, w.table)
    ensures Ready(Run(w, es))
    ensures Contents(Run(w, es)) == Contents(w) + RowsOf(es, w.table)
    ensures Run(w, es).spawned == w.spawned + LapsOf(es)
    ensures Run(w, es).table == w.table && Run(w, es).batchSize == w.batchSize
  {
    hide React, Contents, RowTaken, LapTaken, Ready, Harmless;
    if es == [] {
      assert Contents(w) + [] == Contents(w) && w.spawned + [] == w.spawned;
    } else {
      var front, e := es[..|es| - 1], es[|es| - 1];
      RunConserves(w, front);
      HealthyReact(Run(w, front), e.choice, e.ok);
    }
  }

  // ---- the mutex -------------------------------------------------------------

  /** Once a message could neither be buffered nor written, nothing is ever attempted
      again: the log and the buffer stay, and the mutex is never free. */
  lemma {:induction false} LockedForever(w: Worker, es: seq<Event>)
    requires w.lockHeld && !w.phase.Writing? && w.phase != Stopped
    ensures Run(w, es).lockHeld && !Run(w, es).phase.Writing? && Run(w, es).phase != Stopped
    ensures Run(w, es).log == w.log && Run(w, es).buffer == w.buffer
  {
    hide BuildRow;
    if es != [] {
      LockedForever(w, es[..|es| - 1]);
    }
  }

  lemma UnhealthyReact(w: Worker, c: Choice, ok: bool)
    requires Ready(w) && c.Received? && !Harmless(c.m, w.table)
    ensures React(w, c, ok).lockHeld && !React(w, c, ok).phase.Writing? && React(w, c, ok).phase != Stopped
  {
    hide BuildRow;
  }

  /** The mutex is free at the next select exactly if every message received so far was a
      lap message or had a row in the worker's table. */
  lemma HealthExactly(w: Worker, es: seq<Event>)
    requires Ready(w) && Open(es)
    ensures Ready(Run(w, es)) <==> AllHarmless(es, w.table)
  {
    if AllHarmless(es, w.table) {
      RunConserves(w, es);
    } else {
      HarmIsForever(w, es);
    }
  }

  lemma {:induction false} HarmIsForever(w: Worker, es: seq<Event>)
    requires Ready(w) && Open(es) && !AllHarmless(es, w.table)
    ensures Run(w, es).lockHeld && !Run(w, es).phase.Writing? && Run(w, es).phase != Stopped
  {
    hide React, Harmless, Bounded, Contents, RowsOf, LapsOf;
    var front, e := es[..|es| - 1], es[|es| - 1];
    if AllHarmless(front, w.table) {
      RunConserves(w, front);
      UnhealthyReact(Run(w, front), e.choice, e.ok);
    } else {
      HarmIsForever(w, front);
      LockedForever(Run(w, front), [e]);
      RunOne(Run(w, front), e);
    }
  }

  lemma RunOne(w: Worker, e: Event)
    ensures Run(w, [e]) == React(w, e.choice, e.ok)
  {
    hide React;
    assert [e][..0] == [] && Run(w, [e][..0]) == w;
  }

  // ---- losses ----------------------------------------------------------------

  /** Every row attempted is either written or lost. */
  lemma {:induction false} WrittenOrLost(log: seq<Batch>)
    ensures multiset(Written(log)) + multiset(Lost(log)) == multiset(Attempted(log))
  {
    if log != [] {
      WrittenOrLost(log[..|log| - 1]);
    }
  }

  /** Without a failed write nothing is lost. */
  lemma {:induction false} NothingLost(log: seq<Batch>)
    requires Failures(log) == 0
    ensures Written(log) == Attempted(log) && Lost(log) == []
  {
    if log != [] {
      NothingLost(log[..|log| - 1]);
    }
  }

  /** With F failed writes at most F times a full batch is lost. */
  lemma {:induction false} LossBound(log: seq<Batch>, cap: nat)
    requires forall i | 0 <= i < |log| :: |log[i].rows| <= cap
    ensures |Lost(log)| <= Times(Failures(log), cap)
  {
    if log != [] {
      LossBound(log[..|log| - 1], cap);
    }
  }

  /** The number of rows in all batches of a log. */
  function Length(log: seq<Batch>): nat {
    if log == [] then 0 else Length(log[..|log| - 1]) + |log[|log| - 1].rows|
  }

  /** Some rows in order, divided into batches by the sizes in the log, with the stretch of
      each batch that failed cut out. */
  function CutOut(rows: seq<Wrapped>, log: seq<Batch>): seq<Wrapped>
    requires Length(log) <= |rows|
  {
    if log == [] then []
    else
      var front := log[..|log| - 1];
      CutOut(rows, front) + if log[|log| - 1].ok then rows[Length(front)..Length(log)] else []
  }

  lemma {:induction false} CutOutIsWritten(log: seq<Batch>, rest: seq<Wrapped>)
    ensures Length(log) == |Attempted(log)|
    ensures CutOut(Attempted(log) + rest, log) == Written(log)
  {
    if log != [] {
      var front, last := log[..|log| - 1], log[|log| - 1];
      CutOutIsWritten(front, last.rows + rest);
      var rows := Attempted(log) + rest;
      assert rows == Attempted(front) + (last.rows + rest);
      assert rows[Length(front)..Length(log)] == last.rows;
    }
  }

  /** What became of every row, for any write outcomes. At the next select the table holds
      the received rows in order, with the stretches of the failed batches cut out whole;
      the buffer holds the received rows that no batch has held yet, fewer than a full
      batch; and the rows lost are the rest, at most one full batch for each failure. */
  lemma RowsAccounted(table: Kind, batchSize: int, es: seq<Event>)
    requires Open(es) && AllHarmless(es, table)
    ensures var w, rows := Run(NewWorker(table, batchSize), es), RowsOf(es, table);
            && Length(w.log) <= |rows|
            && Written(w.log) == CutOut(rows, w.log)
            && w.buffer == rows[Length(w.log)..]
            && multiset(Written(w.log)) + multiset(Lost(w.log)) + multiset(w.buffer) == multiset(rows)
            && |Lost(w.log)| <= Failures(w.log) * (if batchSize > 1 then batchSize else 1)
            && |w.buffer| < (if batchSize > 1 then batchSize else 1)
  {
    hide Run, RowsOf, Written, Lost, Failures, Harmless, Contents, Length, CutOut;
    var new' := NewWorker(table, batchSize);
    NewIsReady(table, batchSize);
    RunConserves(new', es);
    assert [] + RowsOf(es, table) == RowsOf(es, table);
    WorkerAccounted(Run(new', es));
  }

  lemma WorkerAccounted(w: Worker)
    requires Ready(w)
    ensures Length(w.log) <= |Contents(w)|
    ensures Written(w.log) == CutOut(Contents(w), w.log) && w.buffer == Contents(w)[Length(w.log)..]
    ensures multiset(Written(w.log)) + multiset(Lost(w.log)) + multiset(w.buffer) == multiset(Contents(w))
    ensures |Lost(w.log)| <= Failures(w.log) * Cap(w) && |w.buffer| < Cap(w)
  {
    hide Attempted, Written, Lost, Failures, Length, CutOut;
    assert Contents(w) == Attempted(w.log) + w.buffer;
    CutOutIsWritten(w.log, w.buffer);
    WrittenOrLost(w.log);
    LossBound(w.log, Cap(w));
    TimesIsProduct(Failures(w.log), Cap(w));
  }

  // ---- batching refines row-at-a-time ----------------------------------------

  /** The received messages alone, without the ticks. */
  function Receipts(es: seq<Event>): seq<Event> {
    if es == [] then []
    else Receipts(es[..|es| - 1]) + if es[|es| - 1].choice.Received? then [es[|es| - 1]] else []
  }

  lemma {:induction false} ReceiptsAmong(es: seq<Event>)
    ensures forall e | e in Receipts(es) :: e in es && e.choice.Received?
  {
    if es != [] {
      ReceiptsAmong(es[..|es| - 1]);
    }
  }

  lemma {:induction false} ReceiptsKeepRows(es: seq<Event>, table: Kind)
    ensures RowsOf(Receipts(es), table) == RowsOf(es, table)
  {
    hide RowTaken;
    if es != [] {
      var front, e := es[..|es| - 1], es[|es| - 1];
      ReceiptsKeepRows(front, table);
      if e.choice.Received? {
        assert Receipts(es)[..|Receipts(es)| - 1] == Receipts(front);
      } else {
        NoRowTaken(e.choice, table);
        assert Receipts(front) + [] == Receipts(front) && RowsOf(front, table) + [] == RowsOf(front, table);
      }
    }
  }

  lemma ReceiptsKeep(es: seq<Event>, table: Kind)
    ensures RowsOf(Receipts(es), table) == RowsOf(es, table)
    ensures Open(Receipts(es))
    ensures AllOk(es) ==> AllOk(Receipts(es))
    ensures AllHarmless(es, table) ==> AllHarmless(Receipts(es), table)
  {
    hide RowsOf, Receipts, Harmless;
    ReceiptsKeepRows(es, table);
    ReceiptsAmong(es);
    forall i | 0 <= i < |Receipts(es)| ensures Receipts(es)[i] in es && Receipts(es)[i].choice.Received? {
      assert Receipts(es)[i] in Receipts(es);
    }
  }

  lemma NoRowTaken(c: Choice, table: Kind)
    requires !c.Received?
    ensures RowTaken(c, table) == []
  {
  }

  lemma {:induction false} OkLog(w: Worker, es: seq<Event>)
    requires AllOk(es) && Failures(w.log) == 0
    ensures Failures(Run(w, es).log) == 0
  {
    hide Select;
    if es != [] {
      OkLog(w, es[..|es| - 1]);
      var w1, e := Run(w, es[..|es| - 1]), es[|es| - 1];
      if w1.phase == Selecting && Select(w1, e.choice).phase.Writing? {
        LogUnchanged(w1, e.choice);
        assert (w1.log + [Batch(Select(w1, e.choice).phase.batch, true)])[..|w1.log|] == w1.log;
      } else if w1.phase == Selecting {
        LogUnchanged(w1, e.choice);
      }
    }
  }

  lemma LogUnchanged(w: Worker, c: Choice)
    requires w.phase == Selecting
    ensures Select(w, c).log == w.log
  {
    hide BuildRow;
  }

  /** For every sequence of messages, every schedule of ticks and every integer batch size,
      if no write fails: the worker stops at a channel close exactly if every message was a
      lap or had a row. The table then holds exactly the received rows in order, and so it
      equals what a worker with batch size one has written without any tick and without
      being stopped, each row on its own. */
  lemma BatchingRefinesRowAtATime(table: Kind, batchSize: int, es: seq<Event>)
    requires Open(es) && AllOk(es)
    ensures var stopped := Run(NewWorker(table, batchSize), es + [Event(Closed, true)]);
            && (stopped.phase == Stopped <==> AllHarmless(es, table))
            && (stopped.phase == Stopped ==>
                  && stopped.buffer == []
                  && Written(stopped.log) == RowsOf(es, table)
                  && Written(Run(NewWorker(table, 1), Receipts(es)).log) == Written(stopped.log)
                  && OneByOne(Run(NewWorker(table, 1), Receipts(es)).log))
  {
    hide Run, React, Harmless;
    NewIsReady(table, batchSize);
    if AllHarmless(es, table) {
      StopWritesAll(NewWorker(table, batchSize), es);
      RowAtATime(table, es);
    } else {
      NeverStops(NewWorker(table, batchSize), es);
    }
  }

  predicate OneByOne(log: seq<Batch>) {
    forall i | 0 <= i < |log| :: |log[i].rows| == 1
  }

  lemma NeverStops(w: Worker, es: seq<Event>)
    requires Ready(w) && Open(es) && !AllHarmless(es, w.table)
    ensures Run(w, es + [Event(Closed, true)]).phase != Stopped
  {
    hide React, Harmless, Bounded;
    HarmIsForever(w, es);
    var all := es + [Event(Closed, true)];
    assert all[..|es|] == es;
    LockedForever(Run(w, es), [Event(Closed, true)]);
    RunOne(Run(w, es), Event(Closed, true));
  }

  lemma RowAtATime(table: Kind, es: seq<Event>)
    requires Open(es) && AllHarmless(es, table) && AllOk(es)
    ensures Written(Run(NewWorker(table, 1), Receipts(es)).log) == RowsOf(es, table)
    ensures OneByOne(Run(NewWorker(table, 1), Receipts(es)).log)
  {
    hide Run, Harmless, RowsOf, Receipts, Written, Failures, Contents, Bounded;
    var one := NewWorker(table, 1);
    NewIsReady(table, 1);
    ReceiptsKeep(es, table);
    RunConserves(one, Receipts(es));
    assert Failures(one.log) == 0 by { NoFailures(); }
    OkLog(one, Receipts(es));
    assert [] + RowsOf(es, table) == RowsOf(es, table);
    UnitBatches(Run(one, Receipts(es)));
    IdleWorker(Run(one, Receipts(es)));
  }

  lemma NoFailures()
    ensures Failures([]) == 0
  {
  }

  lemma UnitBatches(w: Worker)
    requires Bounded(w) && w.batchSize == 1
    ensures w.buffer == [] && OneByOne(w.log)
  {
  }

  /** What an idle worker without failures has written is all it ever took. */
  lemma IdleWorker(w: Worker)
    requires Bounded(w) && w.phase == Selecting && w.buffer == [] && Failures(w.log) == 0
    ensures Written(w.log) == Contents(w)
  {
    NothingLost(w.log);
    assert Contents(w) == Attempted(w.log);
  }

  lemma StopWritesAll(w: Worker, es: seq<Event>)
    requires Ready(w) && Contents(w) == [] && Failures(w.log) == 0
    requires Open(es) && AllHarmless(es, w.table) && AllOk(es)
    ensures var stopped := Run(w, es + [Event(Closed, true)]);
            stopped.phase == Stopped && stopped.buffer == [] && Written(stopped.log) == RowsOf(es, w.table)
  {
    hide React, Harmless;
    var all := es + [Event(Closed, true)];
    assert all[..|es|] == es;
    RunConserves(w, es);
    HealthyReact(Run(w, es), Closed, true);
    OkLog(w, all);
    var stopped := Run(w, all);
    BoundedRun(w, all);
    NothingLost(stopped.log);
    NoRowTaken(Closed, w.table);
    assert Contents(stopped) == Attempted(stopped.log);
  }

  lemma {:induction false} BoundedRun(w: Worker, es: seq<Event>)
    requires Bounded(w) && !w.phase.Writing?
    ensures Bounded(Run(w, es)) && !Run(w, es).phase.Writing?
  {
    hide React, Bounded;
    if es != [] {
      BoundedRun(w, es[..|es| - 1]);
      ReactKeeps(Run(w, es[..|es| - 1]), es[|es| - 1].choice, es[|es| - 1].ok);
    }
  }

  // ---- draining a closed channel ---------------------------------------------

  /** A scheduler's choice while the channel is closed: the receive case or the tick. */
  datatype Turn = ReceiveTurn(ok: bool) | TickTurn(ok: bool)

  function Receives(turns: seq<Turn>): nat {
    if turns == [] then 0
    else Receives(turns[..|turns| - 1]) + if turns[|turns| - 1].ReceiveTurn? then 1 else 0
  }

  /** What the worker sees when its channel is closed with these messages queued: each
      receive takes the next one, and a receive from the empty channel sees the close. */
  function Seen(queue: seq<Wrapped>, turns: seq<Turn>): seq<Event> {
    if turns == [] then []
    else
      var front, t := turns[..|turns| - 1], turns[|turns| - 1];
      var c := if t.TickTurn? then Tick
               else if Receives(front) < |queue| then Received(queue[Receives(front)])
               else Closed;
      Seen(queue, front) + [Event(c, t.ok)]
  }

  function QueueRows(queue: seq<Wrapped>, table: Kind): seq<Wrapped> {
    if queue == [] then []
    else QueueRows(queue[..|queue| - 1], table) + RowTaken(Received(queue[|queue| - 1]), table)
  }

  /** The worker after r receives from the closed channel. */
  predicate Drained(w: Worker, w': Worker, queue: seq<Wrapped>, r: nat) {
    && w'.table == w.table
    && (r <= |queue| ==> Ready(w') && Contents(w') == Contents(w) + QueueRows(queue[..r], w.table))
    && (r > |queue| ==> && w'.phase == Stopped
                        && w'.buffer == []
                        && Attempted(w'.log) == Contents(w) + QueueRows(queue, w.table))
  }

  /** However ticks interleave, the worker is still selecting after k receives and stopped
      after k+1; it then has an empty buffer and has attempted to write exactly what it
      held and every queued row, each once and in order. */
  lemma {:induction false} DrainsOnClose(w: Worker, queue: seq<Wrapped>, turns: seq<Turn>)
    requires Ready(w) && forall i | 0 <= i < |queue| :: Harmless(queue[i], w.table)
    ensures Drained(w, Run(w, Seen(queue, turns)), queue, Receives(turns))
  {
    hide React, Harmless, Drained, Ready, Seen, Receives, Run;
    if turns == [] {
      DrainStart(w, queue);
    } else {
      var front, t := turns[..|turns| - 1], turns[|turns| - 1];
      DrainsOnClose(w, queue, front);
      SeenLast(w, queue, turns);
      var w1, r := Run(w, Seen(queue, front)), Receives(front);
      if t.TickTurn? {
        DrainTick(w, w1, queue, r, t.ok);
      } else if r < |queue| {
        DrainReceive(w, w1, queue, r, t.ok);
      } else {
        DrainClose(w, w1, queue, r, t.ok);
      }
    }
  }

  lemma DrainStart(w: Worker, queue: seq<Wrapped>)
    requires Ready(w)
    ensures Drained(w, Run(w, Seen(queue, [])), queue, Receives([]))
  {
    hide Bounded;
    assert Contents(w) + [] == Contents(w) && queue[..0] == [];
  }

  /** The last turn: what the worker sees in it, and the receives so far. */
  lemma SeenLast(w: Worker, queue: seq<Wrapped>, turns: seq<Turn>)
    requires turns != []
    ensures var front, t := turns[..|turns| - 1], turns[|turns| - 1];
            var r := Receives(front);
            && Receives(turns) == (if t.TickTurn? then r else r + 1)
            && Run(w, Seen(queue, turns))
            == React(Run(w, Seen(queue, front)),
                     if t.TickTurn? then Tick else if r < |queue| then Received(queue[r]) else Closed, t.ok)
  {
    hide React;
    var es := Seen(queue, turns);
    assert es[..|es| - 1] == Seen(queue, turns[..|turns| - 1]);
  }

  lemma DrainTick(w: Worker, w1: Worker, queue: seq<Wrapped>, r: nat, ok: bool)
    requires Ready(w) && Drained(w, w1, queue, r)
    ensures Drained(w, React(w1, Tick, ok), queue, r)
  {
    hide Select, Finish, Bounded, Contents, QueueRows, Attempted;
    if r <= |queue| {
      HealthyReact(w1, Tick, ok);
      NoRowTaken(Tick, w1.table);
      assert Contents(w1) + [] == Contents(w1);
    }
  }

  lemma DrainReceive(w: Worker, w1: Worker, queue: seq<Wrapped>, r: nat, ok: bool)
    requires Ready(w) && Drained(w, w1, queue, r) && r < |queue| && Harmless(queue[r], w.table)
    ensures Drained(w, React(w1, Received(queue[r]), ok), queue, r + 1)
  {
    hide React, Harmless, RowTaken, Bounded, Contents, Attempted;
    HealthyReact(w1, Received(queue[r]), ok);
    assert queue[..r + 1][..r] == queue[..r];
  }

  lemma DrainClose(w: Worker, w1: Worker, queue: seq<Wrapped>, r: nat, ok: bool)
    requires Ready(w) && Drained(w, w1, queue, r) && r >= |queue|
    ensures Drained(w, React(w1, Closed, ok), queue, r + 1)
  {
    hide Select, Finish, Bounded, QueueRows, Attempted;
    if r == |queue| {
      HealthyReact(w1, Closed, ok);
      NoRowTaken(Closed, w1.table);
      assert queue[..|queue|] == queue;
      var w' := React(w1, Closed, ok);
      assert Contents(w') == Attempted(w'.log);
    }
  }
}

/** The batching worker as it runs: an object whose event loop updates a buffer under a
    mutex and copies batches into the table, proved to follow the worker state machine. */
module TableBatcher {
  import opened Telemetry
  import opened Rows
  import opened CopyBatch
  import opened Worker
  import opened WorkerRuns

  // ---- rows of messages ------------------------------------------------------

  /** The row that a message's data becomes in a table. */
  function RowFor(m: Wrapped, table: Kind): Row {
    match BuildRow(m.msg, table)
    case Built(row) => row
    case _ => map[]
  }

  function RowsFor(ms: seq<Wrapped>, table: Kind): (rows: seq<Row>)
    ensures |rows| == |ms|
  {
    if ms == [] then [] else RowsFor(ms[..|ms| - 1], table) + [RowFor(ms[|ms| - 1], table)]
  }

  lemma {:induction false} RowsForAppend(ms: seq<Wrapped>, ns: seq<Wrapped>, table: Kind)
    ensures RowsFor(ms + ns, table) == RowsFor(ms, table) + RowsFor(ns, table)
  {
    hide RowFor;
    if ns == [] {
      assert ms + ns == ms;
    } else {
      assert (ms + ns)[..|ms + ns| - 1] == ms + ns[..|ns| - 1];
      RowsForAppend(ms, ns[..|ns| - 1], table);
    }
  }

  lemma RowsForOne(m: Wrapped, table: Kind)
    ensures RowsFor([m], table) == [RowFor(m, table)]
  {
    hide RowFor;
    assert [m][..0] == [];
  }

  /** Every row has the table's columns. */
  predicate FitsTable(rows: seq<Row>, table: Kind) {
    forall i | 0 <= i < |rows| :: rows[i].Keys == Schema(table)
  }

  lemma ProjectFitting(rows: seq<Row>, table: Kind)
    requires rows != [] && FitsTable(rows, table)
    ensures ProjectAll(rows, rows[0].Keys) == rows
  {
    hide Schema;
    forall i | 0 <= i < |rows| ensures Project(rows[i], rows[0].Keys) == rows[i] {
    }
  }

  /** How an iteration of the event loop ends, other than by going on. */
  datatype Ending = GoOn | Returned | BlockedOnLock | NilDereference

  /** The worker's phase after an iteration that ended this way. */
  function PhaseAfter(ending: Ending): Phase {
    match ending
    case GoOn => Selecting
    case Returned => Stopped
    case BlockedOnLock => Deadlocked
    case NilDereference => Crashed
  }

  /** What a flush adds to the log and to the rows written. */
  lemma WrittenGrows(log: seq<Batch>, rows: seq<Wrapped>, ok: bool, table: Kind)
    ensures RowsFor(Written(log + [Batch(rows, ok)]), table)
         == RowsFor(Written(log), table) + if ok then RowsFor(rows, table) else []
  {
    hide RowsFor;
    var log' := log + [Batch(rows, ok)];
    assert log'[..|log'| - 1] == log;
    if ok {
      RowsForAppend(Written(log), rows, table);
    } else {
      assert Written(log) + [] == Written(log) && RowsFor(Written(log), table) + [] == RowsFor(Written(log), table);
    }
  }

  class TableBatcher {
    const table: Kind
    const batchSize: int
    const conn: Database
    var buffer: seq<Row>
    var locked: bool
    /** The messages for which a lap writer was started. */
    var lapWriters: seq<Wrapped>

    constructor (conn: Database, table: Kind, batchSize: int)
      ensures this.conn == conn && this.table == table && this.batchSize == batchSize
      ensures Follows(NewWorker(table, batchSize), conn.Table(table))
    {
      this.conn, this.table, this.batchSize := conn, table, batchSize;
      buffer, locked, lapWriters := [], false, [];
    }

    /** The object and its table are in the worker's state, the table having held base. */
    ghost predicate Follows(w: Worker, base: seq<Row>)
      reads this, conn
    {
      && w.table == table
      && w.batchSize == batchSize
      && locked == w.lockHeld
      && lapWriters == w.spawned
      && FitsTable(buffer, table)
      && buffer == RowsFor(w.buffer, table)
      && conn.Table(table) == base + RowsFor(Written(w.log), table)
    }

    /** `flush`: takes the whole buffer under the mutex and writes it outside. The lock
        blocks for good if it is already held. */
    method Flush(ok: bool) returns (blocked: bool)
      requires FitsTable(buffer, table)
      modifies this, conn
      ensures blocked == old(locked)
      ensures blocked ==> locked && buffer == old(buffer) && conn.Table(table) == old(conn.Table(table))
      ensures !blocked ==> !locked && buffer == []
                           && conn.Table(table) == old(conn.Table(table)) + if ok then old(buffer) else []
      ensures lapWriters == old(lapWriters)
      ensures forall t | t != table :: conn.Table(t) == old(conn.Table(t))
    {
      hide Schema, Project;
      if locked {
        return true;
      }
      locked := true;
      if |buffer| == 0 {
        locked := false;
        return false;
      }
      var rows := buffer;
      buffer := [];
      locked := false;
      ProjectFitting(rows, table);
      var _ := WriteBatch(conn, table, rows, ok);
      return false;
    }

    /** The receive case of the select. A message that has no row in this table is skipped
        without releasing the mutex. */
    method Receive(m: Wrapped, ok: bool) returns (ending: Ending)
      requires FitsTable(buffer, table)
      modifies this, conn
      ensures lapWriters == old(lapWriters) + LapTaken(Received(m))
      ensures FitsTable(buffer, table)
      ensures forall t | t != table :: conn.Table(t) == old(conn.Table(t))
      ensures IsLap(m) ==> ending == GoOn && buffer == old(buffer) && locked == old(locked)
                           && conn.Table(table) == old(conn.Table(table))
      ensures !IsLap(m) && old(locked) ==> ending == BlockedOnLock && buffer == old(buffer) && locked
                                           && conn.Table(table) == old(conn.Table(table))
      ensures !IsLap(m) && !old(locked) && !HasRow(m, table) ==>
                && ending == (if BuildRow(m.msg, table).NilPanic? then NilDereference else GoOn)
                && locked && buffer == old(buffer) && conn.Table(table) == old(conn.Table(table))
      ensures !IsLap(m) && !old(locked) && HasRow(m, table) ==>
                && ending == GoOn && !locked
                && var rows := old(buffer) + [RowFor(m, table)];
                   if |rows| >= batchSize then
                     buffer == [] && conn.Table(table) == old(conn.Table(table)) + (if ok then rows else [])
                   else buffer == rows && conn.Table(table) == old(conn.Table(table))
    {
      hide BuildRow, Schema;
      if IsLap(m) {
        lapWriters := lapWriters + [m];
        return GoOn;
      }
      if locked {
        return BlockedOnLock;
      }
      locked := true;
      match BuildRow(m.msg, table)
      case NotBuilt =>
        return GoOn;
      case NilPanic =>
        return NilDereference;
      case Built(row) =>
        BuildExactly(m.msg, table);
        buffer := buffer + [row];
        locked := false;
        if |buffer| >= batchSize {
          var _ := Flush(ok);
        }
        return GoOn;
    }

    /** One iteration of the event loop does to the object what it does to the worker. */
    method Iterate(c: Choice, ok: bool, ghost w: Worker, ghost base: seq<Row>) returns (ending: Ending)
      requires Follows(w, base) && w.phase == Selecting
      modifies this, conn
      ensures Follows(React(w, c, ok), base)
      ensures PhaseAfter(ending) == React(w, c, ok).phase
      ensures forall t | t != table :: conn.Table(t) == old(conn.Table(t))
    {
      hide BuildRow, RowsFor, RowFor, Schema, Written;
      WrittenGrows(w.log, w.buffer, ok, table);
      match c
      case Received(m) =>
        RowsForAppend(w.buffer, [m], table);
        RowsForOne(m, table);
        WrittenGrows(w.log, w.buffer + [m], ok, table);
        ending := Receive(m, ok);
      case Tick =>
        var blocked := Flush(ok);
        ending := if blocked then BlockedOnLock else GoOn;
      case _ =>
        var blocked := Flush(ok);
        ending := if blocked then BlockedOnLock else Returned;
    }

    /** `flusherWorker`, for any script of what its selects yield and how its writes end:
        buffer, mutex, lap writers and table are those of the worker's run. */
    method FlusherWorker(es: seq<Event>, ghost base: seq<Row>) returns (ending: Ending)
      requires Follows(NewWorker(table, batchSize), base)
      modifies this, conn
      ensures Follows(Run(NewWorker(table, batchSize), es), base)
      ensures PhaseAfter(ending) == Run(NewWorker(table, batchSize), es).phase
      ensures forall t | t != table :: conn.Table(t) == old(conn.Table(t))
    {
      hide React, RowsFor, Written;
      ghost var start := NewWorker(table, batchSize);
      ending := GoOn;
      assert es[..0] == [];
      for i := 0 to |es|
        invariant Follows(Run(start, es[..i]), base)
        invariant ending == GoOn && Run(start, es[..i]).phase == Selecting
        invariant forall t | t != table :: conn.Table(t) == old(conn.Table(t))
      {
        assert es[..i + 1][..i] == es[..i];
        ending := Iterate(es[i].choice, es[i].ok, Run(start, es[..i]), base);
        if ending != GoOn {
          EndedStays(start, es, i + 1);
          return;
        }
      }
      assert es[..|es|] == es;
    }
  }

  /** The table of a worker whose channel was closed and whose writes all succeeded:
      what it held before, and the row of every received message, one after another. */
  lemma TableAtStop(b: TableBatcher, es: seq<Event>, base: seq<Row>)
    requires Open(es) && AllHarmless(es, b.table) && AllOk(es)
    requires b.Follows(Run(NewWorker(b.table, b.batchSize), es + [Event(Closed, true)]), base)
    ensures b.conn.Table(b.table) == base + RowsFor(RowsOf(es, b.table), b.table)
    ensures b.buffer == []
  {
    hide Run, RowsFor, RowsOf, Harmless;
    BatchingRefinesRowAtATime(b.table, b.batchSize, es);
  }

  /** After the worker has ended, nothing changes any more. */
  lemma {:induction false} EndedStays(w: Worker, es: seq<Event>, n: nat)
    requires n <= |es| && Run(w, es[..n]).phase != Selecting
    ensures Run(w, es) == Run(w, es[..n])
  {
    hide Select, Finish;
    if n == |es| {
      assert es[..n] == es;
    } else {
      assert es[..|es| - 1][..n] == es[..n];
      EndedStays(w, es[..|es| - 1], n);
    }
  }
}

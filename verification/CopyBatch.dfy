/** Writing a batch with COPY: column order is whatever a Go map iteration yields, rows
    are sent by position, and the database reads them back by column name. */
module CopyBatch {
  import opened Wrappers
  import opened Telemetry
  import opened Rows

  // ---- specification ---------------------------------------------------------

  predicate Distinct<T(==)>(xs: seq<T>) {
    forall i, j | 0 <= i < j < |xs| :: xs[i] != xs[j]
  }

  function Elements<T(==)>(xs: seq<T>): set<T> {
    set x | x in xs
  }

  /** Any order of the row's column names. */
  predicate IsOrderOf(keys: seq<Column>, row: Row) {
    Distinct(keys) && Elements(keys) == row.Keys
  }

  /** A Go map read: an absent column is nil. */
  function Lookup(row: Row, c: Column): Cell {
    if c in row then row[c] else Null
  }

  /** The values of a row in the order of the keys. */
  function Positional(keys: seq<Column>, row: Row): (values: seq<Cell>)
    ensures |values| == |keys|
    ensures forall j | 0 <= j < |keys| :: values[j] == Lookup(row, keys[j])
  {
    seq(|keys|, j requires 0 <= j < |keys| => Lookup(row, keys[j]))
  }

  /** What the database stores for a positional row. */
  function ByName(keys: seq<Column>, values: seq<Cell>): Row
    requires |keys| == |values|
  {
    if keys == [] then map[]
    else ByName(keys[..|keys| - 1], values[..|keys| - 1])[keys[|keys| - 1] := values[|keys| - 1]]
  }

  /** A row cut down, or filled up with nulls, to the given columns. */
  function Project(row: Row, columns: set<Column>): Row {
    map c | c in columns :: Lookup(row, c)
  }

  function ProjectAll(rows: seq<Row>, columns: set<Column>): (stored: seq<Row>)
    ensures |stored| == |rows|
    ensures forall i | 0 <= i < |rows| :: stored[i] == Project(rows[i], columns)
  {
    seq(|rows|, i requires 0 <= i < |rows| => Project(rows[i], columns))
  }

  lemma ElementsOfLast<T>(xs: seq<T>, x: T)
    ensures Elements(xs + [x]) == Elements(xs) + {x}
    ensures Distinct(xs + [x]) <==> Distinct(xs) && x !in Elements(xs)
  {
    assert (xs + [x])[|xs|] == x;
    forall y ensures y in xs + [x] <==> y in xs || y == x {
    }
    if Distinct(xs + [x]) {
      forall i, j | 0 <= i < j < |xs| ensures xs[i] != xs[j] {
        assert (xs + [x])[i] != (xs + [x])[j];
      }
      forall i | 0 <= i < |xs| ensures xs[i] != x {
        assert (xs + [x])[i] != (xs + [x])[|xs|];
      }
    }
  }

  lemma ProjectMore(row: Row, columns: set<Column>, c: Column)
    ensures Project(row, columns + {c}) == Project(row, columns)[c := Lookup(row, c)]
  {
  }

  /** Sending by position and storing by name is a projection: the key order is gone. */
  lemma {:induction false} ByNameOfPositional(keys: seq<Column>, row: Row)
    requires Distinct(keys)
    ensures ByName(keys, Positional(keys, row)) == Project(row, Elements(keys))
  {
    if keys == [] {
      assert Elements(keys) == {};
    } else {
      var front, last := keys[..|keys| - 1], keys[|keys| - 1];
      assert keys == front + [last];
      ElementsOfLast(front, last);
      ByNameOfPositional(front, row);
      assert Positional(keys, row)[..|keys| - 1] == Positional(front, row);
      ProjectMore(row, Elements(front), last);
    }
  }

  predicate AllWide(rows: seq<seq<Cell>>, n: nat) {
    forall i | 0 <= i < |rows| :: |rows[i]| == n
  }

  /** A column that a row lacks is stored as null. */
  lemma AbsentIsNull(keys: seq<Column>, row: Row, c: Column)
    requires Distinct(keys) && c in keys
    ensures c in ByName(keys, Positional(keys, row))
    ensures ByName(keys, Positional(keys, row))[c] == if c in row then row[c] else Null
  {
    ByNameOfPositional(keys, row);
    assert c in Elements(keys);
  }

  /** The rows stored for positional rows. */
  function ByNames(keys: seq<Column>, rows: seq<seq<Cell>>): (stored: seq<Row>)
    requires AllWide(rows, |keys|)
    ensures |stored| == |rows|
    ensures forall i | 0 <= i < |rows| :: stored[i] == ByName(keys, rows[i])
  {
    seq(|rows|, i requires 0 <= i < |rows| => ByName(keys, rows[i]))
  }

  function Positionals(keys: seq<Column>, rows: seq<Row>): (sent: seq<seq<Cell>>)
    ensures |sent| == |rows| && AllWide(sent, |keys|)
    ensures forall i | 0 <= i < |rows| :: sent[i] == Positional(keys, rows[i])
  {
    seq(|rows|, i requires 0 <= i < |rows| => Positional(keys, rows[i]))
  }

  lemma ByNamesOfPositionals(keys: seq<Column>, rows: seq<Row>)
    requires Distinct(keys)
    ensures ByNames(keys, Positionals(keys, rows)) == ProjectAll(rows, Elements(keys))
  {
    forall i | 0 <= i < |rows| ensures ByName(keys, Positional(keys, rows[i])) == Project(rows[i], Elements(keys)) {
      ByNameOfPositional(keys, rows[i]);
    }
  }

  /** All rows have the same columns. */
  predicate SameColumns(rows: seq<Row>) {
    forall i | 0 <= i < |rows| :: rows[i].Keys == rows[0].Keys
  }

  /** Whatever order the keys of the first row come in, the rows stored are the rows
      given exactly when they all have the first row's columns: a missing column would
      be stored as null, an additional one would be dropped. */
  lemma StoredAsGivenExactly(rows: seq<Row>, keys: seq<Column>)
    requires rows != [] && IsOrderOf(keys, rows[0])
    ensures ByNames(keys, Positionals(keys, rows)) == rows <==> SameColumns(rows)
  {
    ByNamesOfPositionals(keys, rows);
    var stored := ProjectAll(rows, rows[0].Keys);
    forall i | 0 <= i < |rows| ensures stored[i] == rows[i] <==> rows[i].Keys == rows[0].Keys {
      assert stored[i].Keys == rows[0].Keys;
    }
  }

  /** Two orders of the same columns store the same rows. */
  lemma OrderDoesNotMatter(rows: seq<Row>, keys: seq<Column>, keys': seq<Column>)
    requires rows != [] && IsOrderOf(keys, rows[0]) && IsOrderOf(keys', rows[0])
    ensures ByNames(keys, Positionals(keys, rows)) == ByNames(keys', Positionals(keys', rows))
  {
    ByNamesOfPositionals(keys, rows);
    ByNamesOfPositionals(keys', rows);
  }

  /** Rows built for one table from any messages satisfy that condition. */
  lemma BuiltRowsHaveSameColumns(ms: seq<GameTelemetry>, table: Kind)
    requires forall i | 0 <= i < |ms| :: BuildRow(ms[i], table).Built?
    ensures SameColumns(seq(|ms|, i requires 0 <= i < |ms| => BuildRow(ms[i], table).row))
  {
    forall i | 0 <= i < |ms| ensures BuildRow(ms[i], table).row.Keys == Schema(table) {
      BuildExactly(ms[i], table);
    }
  }

  // ---- the code --------------------------------------------------------------

  /** The column names of a row, in an order that the environment picks. */
  method RowKeys(row: Row) returns (keys: seq<Column>)
    ensures IsOrderOf(keys, row)
  {
    keys := [];
    var left := row.Keys;
    while left != {}
      invariant left <= row.Keys && Distinct(keys)
      invariant Elements(keys) == row.Keys - left
      decreases |left|
    {
      var k :| k in left;
      ElementsOfLast(keys, k);
      keys := keys + [k];
      left := left - {k};
    }
  }

  /** `copyFromSource`: the rows not yet read. */
  class CopyFromSource {
    var rows: seq<seq<Cell>>

    constructor (rows: seq<seq<Cell>>)
      ensures this.rows == rows
    {
      this.rows := rows;
    }

    method Next() returns (more: bool)
      ensures more == (|rows| > 0)
    {
      return |rows| > 0;
    }

    /** The first unread row, or nothing at the end. */
    method Values() returns (values: Option<seq<Cell>>)
      modifies this
      ensures old(rows) == [] ==> values == None && rows == []
      ensures old(rows) != [] ==> values.Some? && old(rows) == [values.value] + rows
    {
      if |rows| == 0 {
        return None;
      }
      values := Some(rows[0]);
      rows := rows[1..];
    }
  }

  /** A table behind the connection. A COPY stores every row or none. */
  class Database {
    var stored: map<Kind, seq<Row>>

    constructor ()
      ensures stored == map[]
    {
      stored := map[];
    }

    function Table(table: Kind): seq<Row>
      reads this
    {
      if table in stored then stored[table] else []
    }

    /** `CopyFrom`: drains the source through Next and Values. It fails if the
        environment says so, or if a row has the wrong number of values. */
    method CopyFrom(table: Kind, keys: seq<Column>, source: CopyFromSource, ok: bool) returns (err: bool)
      modifies this, source
      ensures forall t | t != table :: Table(t) == old(Table(t))
      ensures err == !(ok && AllWide(old(source.rows), |keys|))
      ensures Table(table) == old(Table(table)) + if err then [] else ByNames(keys, old(source.rows))
    {
      ghost var given := source.rows;
      var copied: seq<Row> := [];
      var more := source.Next();
      while more
        invariant stored == old(stored) && more == (|source.rows| > 0)
        invariant |copied| + |source.rows| == |given| && given[|copied|..] == source.rows
        invariant AllWide(given[..|copied|], |keys|) && copied == ByNames(keys, given[..|copied|])
        decreases |source.rows|
      {
        var values := source.Values();
        assert given[..|copied| + 1] == given[..|copied|] + [values.value];
        assert given[|copied|] == values.value;
        if |values.value| != |keys| {
          assert Table(table) + [] == Table(table);
          return true;
        }
        copied := copied + [ByName(keys, values.value)];
        more := source.Next();
      }
      assert given[..|copied|] == given;
      if !ok {
        assert Table(table) + [] == Table(table);
        return true;
      }
      stored := stored[table := Table(table) + copied];
      return false;
    }
  }

  /** The two nested loops of `writeBatch`. */
  method SourceRows(keys: seq<Column>, rows: seq<Row>) returns (sent: seq<seq<Cell>>)
    ensures sent == Positionals(keys, rows)
  {
    var sourceRows := new seq<Cell>[|rows|];
    for i := 0 to |rows|
      invariant forall k | 0 <= k < i :: sourceRows[k] == Positional(keys, rows[k])
    {
      var values := new Cell[|keys|];
      for j := 0 to |keys|
        invariant forall k | 0 <= k < j :: values[k] == Lookup(rows[i], keys[k])
        invariant forall k | 0 <= k < i :: sourceRows[k] == Positional(keys, rows[k])
      {
        values[j] := Lookup(rows[i], keys[j]);
      }
      assert values[..] == Positional(keys, rows[i]);
      sourceRows[i] := values[..];
    }
    return sourceRows[..];
  }

  /** `writeBatch`: if the COPY succeeds the table grows by the batch's rows, projected
      to the columns of the first; otherwise it stays as it was. */
  method WriteBatch(conn: Database, table: Kind, rows: seq<Row>, ok: bool) returns (err: bool)
    requires rows != []
    modifies conn
    ensures err == !ok
    ensures conn.Table(table) == old(conn.Table(table)) + if ok then ProjectAll(rows, rows[0].Keys) else []
    ensures forall t | t != table :: conn.Table(t) == old(conn.Table(t))
  {
    hide Project, Positional, ByName;
    var keys := RowKeys(rows[0]);
    var sourceRows := SourceRows(keys, rows);
    var source := new CopyFromSource(sourceRows);
    err := conn.CopyFrom(table, keys, source, ok);
    ByNamesOfPositionals(keys, rows);
  }
}

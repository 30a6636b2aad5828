/** The `session_lap_data` table: inserts that do nothing if the lap is already there. */
module LapTable {
  import opened Telemetry

  datatype LapKey = LapKey(sessionId: string, userId: string, lapNum: int)

  datatype LapRow = LapRow(key: LapKey, title: GameTitle, lap: HistoricLapData)

  /** The row that `WriteLapRow` inserts. */
  function LapRowOf(m: GameTelemetry): LapRow
    requires m.data.LapTimesDataOf?
  {
    LapRow(LapKey(m.sessionId, m.userId, m.data.lapTimes.lapNum), m.title, m.data.lapTimes)
  }

  predicate HasKey(t: seq<LapRow>, k: LapKey) {
    exists i | 0 <= i < |t| :: t[i].key == k
  }

  /** `INSERT ... ON CONFLICT DO NOTHING`. */
  function Insert(t: seq<LapRow>, r: LapRow): seq<LapRow> {
    if HasKey(t, r.key) then t else t + [r]
  }

  function InsertAll(t: seq<LapRow>, rs: seq<LapRow>): seq<LapRow> {
    if rs == [] then t else Insert(InsertAll(t, rs[..|rs| - 1]), rs[|rs| - 1])
  }

  class SessionLapTable {
    var rows: seq<LapRow>

    constructor ()
      ensures rows == []
    {
      rows := [];
    }

    /** `WriteLapRow`: an error for a message without lap data, or if the statement fails. */
    method WriteLapRow(m: GameTelemetry, ok: bool) returns (err: bool)
      modifies this
      ensures err == !(m.data.LapTimesDataOf? && ok)
      ensures rows == if err then old(rows) else Insert(old(rows), LapRowOf(m))
    {
      if !m.data.LapTimesDataOf? || !ok {
        return true;
      }
      var r := LapRowOf(m);
      var i, found := 0, false;
      while i < |rows|
        invariant i <= |rows| && rows == old(rows)
        invariant found <==> HasKey(rows[..i], r.key)
      {
        assert rows[..i + 1][..i] == rows[..i];
        if rows[i].key == r.key {
          assert rows[..i + 1][i].key == r.key;
          found := true;
        } else if found {
          KeyOfLonger(rows[..i], [rows[i]], r.key);
          assert rows[..i + 1] == rows[..i] + [rows[i]];
        }
        i := i + 1;
      }
      assert rows[..|rows|] == rows;
      if !found {
        rows := rows + [r];
      }
      return false;
    }
  }

  lemma KeyOfLonger(t: seq<LapRow>, s: seq<LapRow>, k: LapKey)
    ensures HasKey(t + s, k) <==> HasKey(t, k) || HasKey(s, k)
  {
    if HasKey(t, k) {
      var i :| 0 <= i < |t| && t[i].key == k;
      assert (t + s)[i].key == k;
    }
    if HasKey(s, k) {
      var i :| 0 <= i < |s| && s[i].key == k;
      assert (t + s)[|t| + i].key == k;
    }
  }

  // ---- first arrivals --------------------------------------------------------

  predicate UniqueKeys(t: seq<LapRow>) {
    forall i, j | 0 <= i < j < |t| :: t[i].key != t[j].key
  }

  /** The row stored under a key; with unique keys there is at most one. */
  function Find(t: seq<LapRow>, k: LapKey): seq<LapRow> {
    if t == [] then []
    else if t[0].key == k then [t[0]]
    else Find(t[1..], k)
  }

  lemma {:induction false} FindOfAppend(t: seq<LapRow>, s: seq<LapRow>, k: LapKey)
    ensures Find(t + s, k) == if Find(t, k) != [] then Find(t, k) else Find(s, k)
    ensures Find(t, k) != [] <==> HasKey(t, k)
  {
    if t == [] {
      assert t + s == s;
    } else {
      FindOfAppend(t[1..], s, k);
      assert (t + s)[1..] == t[1..] + s;
      assert t == [t[0]] + t[1..];
      KeyOfLonger([t[0]], t[1..], k);
      if t[0].key == k {
        assert [t[0]][0].key == k;
      }
    }
  }

  /** In general the first arrival for a key is kept and nothing that is stored is ever
      changed or removed; keys stay unique. */
  lemma {:induction false} FirstArrivalKept(t: seq<LapRow>, rs: seq<LapRow>, k: LapKey)
    requires UniqueKeys(t)
    ensures UniqueKeys(InsertAll(t, rs))
    ensures t <= InsertAll(t, rs)
    ensures Find(InsertAll(t, rs), k) == Find(t + rs, k)
  {
    if rs == [] {
      assert t + rs == t;
    } else {
      var front, r := rs[..|rs| - 1], rs[|rs| - 1];
      var before := InsertAll(t, front);
      FirstArrivalKept(t, front, k);
      assert t + rs == (t + front) + [r];
      FindOfAppend(t + front, [r], k);
      FindOfAppend(before, [r], k);
      if HasKey(before, r.key) {
        FindOfAppend(before, [], r.key);
        if r.key == k {
          assert before + [] == before;
        }
      }
    }
  }

  /** Replaying rows whose keys are all there changes nothing; so replaying any part of a
      finished history, in any order and any number of times, is a no-op. */
  lemma {:induction false} ReplayIsNoOp(t: seq<LapRow>, rs: seq<LapRow>, qs: seq<LapRow>)
    requires forall i | 0 <= i < |qs| :: qs[i] in rs
    ensures InsertAll(InsertAll(t, rs), qs) == InsertAll(t, rs)
  {
    if qs != [] {
      ReplayIsNoOp(t, rs, qs[..|qs| - 1]);
      InsertedIsThere(t, rs, qs[|qs| - 1]);
    }
  }

  lemma {:induction false} InsertedIsThere(t: seq<LapRow>, rs: seq<LapRow>, r: LapRow)
    requires r in rs
    ensures HasKey(InsertAll(t, rs), r.key)
  {
    var front, last := rs[..|rs| - 1], rs[|rs| - 1];
    var before := InsertAll(t, front);
    if r == last {
      if !HasKey(before, r.key) {
        assert (before + [r])[|before|].key == r.key;
      }
    } else {
      assert r in front;
      InsertedIsThere(t, front, r);
      KeyOfLonger(before, [last], r.key);
    }
  }

  // ---- confluence ------------------------------------------------------------

  function Stored(t: seq<LapRow>): set<LapRow> {
    set r | r in t
  }

  /** Rows with equal keys are equal. */
  predicate Agreeing(rs: seq<LapRow>) {
    forall r, r' | r in rs && r' in rs && r.key == r'.key :: r == r'
  }

  lemma StoredOfLast(t: seq<LapRow>, r: LapRow)
    ensures Stored(t + [r]) == Stored(t) + {r}
  {
    assert (t + [r])[|t|] == r;
    forall x ensures x in t + [r] <==> x in t || x == r {
    }
  }

  lemma {:induction false} AgreeingStoresAll(rs: seq<LapRow>)
    requires Agreeing(rs)
    ensures Stored(InsertAll([], rs)) == Stored(rs)
  {
    if rs != [] {
      var front, r := rs[..|rs| - 1], rs[|rs| - 1];
      var before := InsertAll([], front);
      assert rs == front + [r];
      StoredOfLast(front, r);
      StoredOfLast(before, r);
      assert Agreeing(front) by {
        assert forall x | x in front :: x in rs;
      }
      AgreeingStoresAll(front);
      if HasKey(before, r.key) {
        var i :| 0 <= i < |before| && before[i].key == r.key;
        assert before[i] in Stored(before);
        assert before[i] in rs && r in rs;
      }
    }
  }

  /** Any two ways of writing the same rows, in whatever order and however often each,
      leave the same rows stored. */
  ghost predicate OrderIndependent(rs: seq<LapRow>) {
    forall ps: seq<LapRow>, qs: seq<LapRow> | Stored(ps) == Stored(rs) && Stored(qs) == Stored(rs) ::
      Stored(InsertAll([], ps)) == Stored(InsertAll([], qs))
  }

  /** The final content does not depend on the order or the repetition of the writes,
      exactly if rows with equal keys agree. */
  lemma ConfluentExactly(rs: seq<LapRow>)
    ensures OrderIndependent(rs) <==> Agreeing(rs)
  {
    if Agreeing(rs) {
      forall ps: seq<LapRow> | Stored(ps) == Stored(rs) ensures Stored(InsertAll([], ps)) == Stored(rs) {
        assert forall r | r in ps :: r in Stored(ps);
        assert forall r | r in Stored(rs) :: r in rs;
        AgreeingStoresAll(ps);
      }
    } else {
      var r, r' :| r in rs && r' in rs && r.key == r'.key && r != r';
      OrderMatters(rs, r, r');
    }
  }

  /** Two different rows for one key: the one written first wins. */
  lemma OrderMatters(rs: seq<LapRow>, r: LapRow, r': LapRow)
    requires r in rs && r' in rs && r.key == r'.key && r != r'
    ensures !OrderIndependent(rs)
  {
    var ps, qs := [r] + rs, [r'] + rs;
    StoredOfFirst(r, rs);
    StoredOfFirst(r', rs);
    WinnerStays(r, rs);
    WinnerStays(r', rs);
    FirstArrivalKept([], ps, r.key);
    NoOther(InsertAll([], ps), r, r');
    assert r' in Stored(InsertAll([], qs)) && r' !in Stored(InsertAll([], ps));
  }

  lemma StoredOfFirst(r: LapRow, rs: seq<LapRow>)
    requires r in rs
    ensures Stored([r] + rs) == Stored(rs)
  {
  }

  lemma WinnerStays(r: LapRow, rs: seq<LapRow>)
    ensures r in InsertAll([], [r] + rs)
  {
    FirstArrivalKept([], [r] + rs, r.key);
    FindIsIn(InsertAll([], [r] + rs), r.key);
    assert [] + ([r] + rs) == [r] + rs;
  }

  lemma {:induction false} FindIsIn(t: seq<LapRow>, k: LapKey)
    ensures forall r | r in Find(t, k) :: r in t && r.key == k
  {
    if t != [] {
      FindIsIn(t[1..], k);
    }
  }

  lemma NoOther(t: seq<LapRow>, r: LapRow, r': LapRow)
    requires UniqueKeys(t) && r in t && r.key == r'.key && r != r'
    ensures r' !in t
  {
    forall i, j | 0 <= i < |t| && 0 <= j < |t| && t[i] == r ensures t[j] != r' {
      assert i < j || j <= i;
    }
  }
}

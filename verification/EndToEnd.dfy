/** Ingest, a transport that loses, repeats and reorders messages, and persist, composed:
    what the lap table holds after any run. */
module EndToEnd {
  import opened Wrappers
  import opened CacheKeys
  import opened PackedCodec
  import opened F123Packets
  import opened Telemetry
  import opened Ingest
  import opened IngestFacts
  import opened Emission
  import opened CopyBatch
  import opened Worker
  import opened LapTable
  import opened Persist

  /** Ingest's cache, the messages the transport may still deliver, persist, and the
      actions persist has taken. */
  datatype World = World(cache: Cache, alive: bool, transit: set<GameTelemetry>, persist: State, actions: seq<Action>)

  function Start(batchSize: int): World {
    World(map[], true, {}, Init(batchSize), [])
  }

  /** A delivered message stays in transit, so it may be delivered again, at any time and
      in any order; losing it ends that. A restart empties the cache. */
  datatype Event =
    | Packet(p: Datagram)
    | Restart
    | Lose(m: GameTelemetry)
    | Deliver(m: GameTelemetry)
    | Inside(a: Action)

  function Persisted(w: World, a: Action): World {
    w.(persist := if Enabled(w.persist, a) then Persist.Step(w.persist, a) else w.persist, actions := w.actions + [a])
  }

  function Next(w: World, e: Event): World {
    match e
    case Packet(p) =>
      if !w.alive then w
      else
        var out := FromBytes(w.cache, p.bytes, p.clock);
        w.(cache := out.cache, alive := out.status != Panicked, transit := w.transit + set m | m in out.sent)
    case Restart => w.(cache := map[], alive := true)
    case Lose(m) => w.(transit := w.transit - {m})
    case Deliver(m) => if m in w.transit then Persisted(w, Add(m)) else w
    case Inside(a) => if a.Add? then w else Persisted(w, a)
  }

  function Happens(w: World, es: seq<Event>): World {
    if es == [] then w else Next(Happens(w, es[..|es| - 1]), es[|es| - 1])
  }

  // ---- stable histories ------------------------------------------------------

  /** The laps that were really driven: session, car, lap number. */
  type History = (nat, nat, nat) -> HistoricLapData

  /** A history packet of the player reports the laps that were driven. */
  predicate Reports(packet: seq<byte>, truth: History) {
    IsPlayerHistory(packet) ==>
      var h := HeaderAt(packet, 0);
      forall i: nat | i < CompletedLaps(packet) && i < MAX_LAPS ::
        ToHistoricLap(i, LapAt(packet, i)) == truth(h.sessionUID, h.playerCarIndex, i)
  }

  predicate Stable(es: seq<Event>, truth: History) {
    forall i | 0 <= i < |es| && es[i].Packet? :: Reports(es[i].p.bytes, truth)
  }

  /** A lap message that tells the truth about some lap. */
  ghost predicate TrueLap(m: GameTelemetry, truth: History)
    requires m.data.LapTimesDataOf?
  {
    exists session: nat, car: nat ::
      && m.sessionId == Decimal(session)
      && m.userId == Decimal(car)
      && m.data.lapTimes.lapNum >= 0
      && m.data.lapTimes == truth(session, car, m.data.lapTimes.lapNum)
  }

  /** A message as ingest builds them; with a truth to compare to, one that tells it. */
  ghost predicate Genuine(m: GameTelemetry, truth: Option<History>) {
    FromIngest(m) && (m.data.LapTimesDataOf? && truth.Some? ==> TrueLap(m, truth.value))
  }

  lemma SentIsGenuine(cache: Cache, p: Datagram, truth: Option<History>)
    requires truth.Some? ==> Reports(p.bytes, truth.value)
    ensures forall m | m in FromBytes(cache, p.bytes, p.clock).sent :: Genuine(m, truth)
  {
    hide FromBytes, ToHistoricLap, Decimal;
    SentFromBytes(cache, p.bytes, p.clock);
    forall m | m in FromBytes(cache, p.bytes, p.clock).sent && m.data.LapTimesDataOf? && truth.Some?
      ensures TrueLap(m, truth.value)
    {
      var h, i := HeaderAt(p.bytes, 0), m.data.lapTimes.lapNum;
      assert IsLapOf(m, p.bytes);
      assert m.data.lapTimes == truth.value(h.sessionUID, h.playerCarIndex, i);
    }
  }

  ghost predicate WorldInv(w: World, batchSize: int, truth: Option<History>) {
    && w.persist == Persist.After(Init(batchSize), w.actions)
    && Persist.Inv(w.persist)
    && (forall m | m in w.transit :: Genuine(m, truth))
    && (forall m | m in w.persist.accepted :: Genuine(m.msg, truth))
  }

  lemma PersistedKeeps(w: World, a: Action, batchSize: int, truth: Option<History>)
    requires WorldInv(w, batchSize, truth) && (a.Add? ==> Genuine(a.msg, truth))
    ensures WorldInv(Persisted(w, a), batchSize, truth)
  {
    hide Enabled, Persist.Step, Persist.Inv, Genuine;
    assert (w.actions + [a])[..|w.actions|] == w.actions;
    if Enabled(w.persist, a) {
      StepKeeps(w.persist, a);
      AcceptedByAdd(w.persist, a);
    }
  }

  lemma AcceptedByAdd(s: State, a: Action)
    requires Enabled(s, a)
    ensures forall m | m in Persist.Step(s, a).accepted :: m in s.accepted || (a.Add? && m.msg == a.msg)
  {
    hide Down, LaneSend, LaneReceive, LaneTick, LaneFinish, LapRowOf;
  }

  lemma {:induction false} AlwaysGenuine(batchSize: int, es: seq<Event>, truth: Option<History>)
    requires truth.Some? ==> Stable(es, truth.value)
    ensures WorldInv(Happens(Start(batchSize), es), batchSize, truth)
  {
    hide Persist.Inv, Genuine, Reports, FromBytes, Persisted, Persist.After;
    if es == [] {
      InitInv(batchSize);
      InitIsAfter(batchSize);
    } else {
      var w, e := Happens(Start(batchSize), es[..|es| - 1]), es[|es| - 1];
      AlwaysGenuine(batchSize, es[..|es| - 1], truth);
      match e
      case Packet(p) => SentIsGenuine(w.cache, p, truth);
      case Restart =>
      case Lose(m) =>
      case Deliver(m) =>
        if m in w.transit {
          PersistedKeeps(w, Add(m), batchSize, truth);
        }
      case Inside(a) =>
        if !a.Add? {
          PersistedKeeps(w, a, batchSize, truth);
        }
    }
  }

  lemma InitIsAfter(batchSize: int)
    ensures Persist.After(Init(batchSize), []) == Init(batchSize)
  {
  }

  // ---- the lap table ---------------------------------------------------------

  lemma {:induction false} InsertedFrom(t: seq<LapRow>, rs: seq<LapRow>)
    ensures forall r | r in InsertAll(t, rs) :: r in t || r in rs
  {
    if rs != [] {
      InsertedFrom(t, rs[..|rs| - 1]);
    }
  }

  lemma {:induction false} LapRowsFrom(ms: seq<Wrapped>, r: LapRow) returns (m: Wrapped)
    requires r in LapRows(ms)
    ensures m in ms && IsLap(m) && r == LapRowOf(m.msg)
  {
    var front, last := ms[..|ms| - 1], ms[|ms| - 1];
    if r in LapRows(front) {
      m := LapRowsFrom(front, r);
    } else {
      m := last;
    }
  }

  lemma {:induction false} LapRowsAll(ms: seq<Wrapped>, m: Wrapped)
    requires m in ms && IsLap(m)
    ensures LapRowOf(m.msg) in LapRows(ms)
  {
    if m != ms[|ms| - 1] {
      LapRowsAll(ms[..|ms| - 1], m);
    }
  }

  /** What a write of a lap message needs to have happened before it. */
  lemma WrittenWasAccepted(s: State, m: Wrapped)
    requires Persist.Inv(s) && m in s.lapWritten
    ensures m in s.accepted && IsLap(m)
  {
    hide LaneInv, Distinct;
    assert m in s.lanes[SessionLap].received;
    assert m in Arrived(s.lanes[SessionLap]);
    LaneKind(SessionLap, s.lanes[SessionLap], s.batchSize, m);
  }

  function KeyOf(session: nat, car: nat, lap: int): LapKey {
    LapKey(Decimal(session), Decimal(car), lap)
  }

  /** In every state of every run whose packets report the laps that were driven, whatever
      was lost, repeated, reordered, restarted or failed to be written: no two rows are
      for the same lap, and every row is the row of a lap that was driven. */
  lemma RowsAgree(batchSize: int, es: seq<Event>, truth: History)
    requires Stable(es, truth)
    ensures UniqueKeys(Happens(Start(batchSize), es).persist.laps)
    ensures forall r, session: nat, car: nat |
              r in Happens(Start(batchSize), es).persist.laps && r.key == KeyOf(session, car, r.key.lapNum) ::
              r.key.lapNum >= 0 && r == LapRow(r.key, TitleF123, truth(session, car, r.key.lapNum))
    ensures forall r | r in Happens(Start(batchSize), es).persist.laps ::
              exists session: nat, car: nat :: r.key == KeyOf(session, car, r.key.lapNum)
  {
    hide Happens;
    var w := Happens(Start(batchSize), es);
    AlwaysGenuine(batchSize, es, Some(truth));
    FirstArrivalKept([], LapRows(w.persist.lapWritten), KeyOf(0, 0, 0));
    forall r | r in w.persist.laps
      ensures exists session: nat, car: nat :: r.key == KeyOf(session, car, r.key.lapNum)
    {
      var m := RowFrom(w, batchSize, truth, r);
    }
    forall r, session: nat, car: nat | r in w.persist.laps && r.key == KeyOf(session, car, r.key.lapNum)
      ensures r.key.lapNum >= 0 && r == LapRow(r.key, TitleF123, truth(session, car, r.key.lapNum))
    {
      var m := RowFrom(w, batchSize, truth, r);
      TruthOf(m.msg, truth, session, car);
    }
  }

  /** A row in the table comes from a genuine message. */
  lemma RowFrom(w: World, batchSize: int, truth: History, r: LapRow) returns (m: Wrapped)
    requires WorldInv(w, batchSize, Some(truth)) && r in w.persist.laps
    ensures m.msg.data.LapTimesDataOf? && r == LapRowOf(m.msg) && Genuine(m.msg, Some(truth))
    ensures exists session: nat, car: nat :: r.key == KeyOf(session, car, r.key.lapNum)
  {
    hide Persist.After, LaneInv, Arrived, Distinct, Decimal;
    InsertedFrom([], LapRows(w.persist.lapWritten));
    m := LapRowsFrom(w.persist.lapWritten, r);
    WrittenWasAccepted(w.persist, m);
    assert TrueLap(m.msg, truth);
    var session: nat, car: nat :| m.msg.sessionId == Decimal(session) && m.msg.userId == Decimal(car);
    assert r.key == KeyOf(session, car, r.key.lapNum);
  }

  /** The identifiers of a message determine the session and the car. */
  lemma TruthOf(m: GameTelemetry, truth: History, session: nat, car: nat)
    requires Genuine(m, Some(truth)) && m.data.LapTimesDataOf?
    requires m.sessionId == Decimal(session) && m.userId == Decimal(car)
    ensures m.data.lapTimes.lapNum >= 0 && m.data.lapTimes == truth(session, car, m.data.lapTimes.lapNum)
    ensures m.title == TitleF123
  {
    hide Decimal;
    var session': nat, car': nat :|
      && m.sessionId == Decimal(session') && m.userId == Decimal(car')
      && m.data.lapTimes.lapNum >= 0
      && m.data.lapTimes == truth(session', car', m.data.lapTimes.lapNum);
    DecimalInjective(session, session');
    DecimalInjective(car, car');
  }

  /** A lap is in the table exactly if some insert for it has succeeded. */
  lemma PresentExactly(batchSize: int, es: seq<Event>, k: LapKey)
    ensures var s := Happens(Start(batchSize), es).persist;
            HasKey(s.laps, k) <==> exists m | m in s.lapWritten :: IsLap(m) && LapRowOf(m.msg).key == k
  {
    hide Happens;
    var w := Happens(Start(batchSize), es);
    AlwaysGenuine(batchSize, es, None);
    PresentInState(w.persist, k);
  }

  lemma PresentInState(s: State, k: LapKey)
    requires Persist.Inv(s)
    ensures HasKey(s.laps, k) <==> exists m | m in s.lapWritten :: IsLap(m) && LapRowOf(m.msg).key == k
  {
    hide LaneInv, Arrived, Distinct, KindOf;
    if HasKey(s.laps, k) {
      var i :| 0 <= i < |s.laps| && s.laps[i].key == k;
      InsertedFrom([], LapRows(s.lapWritten));
      var m := LapRowsFrom(s.lapWritten, s.laps[i]);
    }
    if m :| m in s.lapWritten && IsLap(m) && LapRowOf(m.msg).key == k {
      LapRowsAll(s.lapWritten, m);
      InsertedIsThere([], LapRows(s.lapWritten), LapRowOf(m.msg));
    }
  }

  /** The row that the table must hold for a lap. */
  function TrueRow(truth: History, session: nat, car: nat, lap: nat): LapRow {
    LapRow(KeyOf(session, car, lap), TitleF123, truth(session, car, lap))
  }

  /** Some insert of the message has succeeded. */
  ghost predicate WasInserted(s: State, msg: GameTelemetry) {
    exists x :: x in s.lapWritten && x.msg == msg
  }

  /** Some delivery of the message has not failed to be inserted. */
  ghost predicate WasDelivered(s: State, msg: GameTelemetry) {
    exists x :: x in s.accepted && x !in s.lapLost && x.msg == msg
  }

  /** Once an insert for each message of one burst of m laps has succeeded, laps 0 to m-1
      of the car are all there, each once and with the values that were driven, whatever
      earlier or later bursts lost. */
  lemma BurstStored(batchSize: int, es: seq<Event>, truth: History, p: Datagram, m: nat)
    requires Stable(es, truth) && Reports(p.bytes, truth)
    requires IsPlayerHistory(p.bytes) && m <= MAX_LAPS && m <= CompletedLaps(p.bytes)
    requires forall i | 0 <= i < m ::
               WasInserted(Happens(Start(batchSize), es).persist, LapMessages(p.bytes, m, p.clock)[i])
    ensures var laps, h := Happens(Start(batchSize), es).persist.laps, HeaderAt(p.bytes, 0);
            && UniqueKeys(laps)
            && forall i: nat | i < m :: TrueRow(truth, h.sessionUID, h.playerCarIndex, i) in laps
  {
    hide Happens, Decimal, Reports;
    var s, h := Happens(Start(batchSize), es).persist, HeaderAt(p.bytes, 0);
    RowsAgree(batchSize, es, truth);
    forall i: nat | i < m ensures TrueRow(truth, h.sessionUID, h.playerCarIndex, i) in s.laps {
      assert WasInserted(s, LapMessages(p.bytes, m, p.clock)[i]);
      var x :| x in s.lapWritten && x.msg == LapMessages(p.bytes, m, p.clock)[i];
      var k := KeyOf(h.sessionUID, h.playerCarIndex, i);
      assert IsLap(x) && LapRowOf(x.msg).key == k;
      PresentExactly(batchSize, es, k);
      var j :| 0 <= j < |s.laps| && s.laps[j].key == k;
      assert s.laps[j] in s.laps;
    }
  }

  // ---- delivery --------------------------------------------------------------

  /** No lap message is on its way inside persist. */
  predicate LapsSettled(s: State)
    requires AllLanes(s)
  {
    && s.lapWriters == {}
    && s.lanes[SessionLap].channel == []
    && forall m | m in s.waiting :: !IsLap(m)
  }

  /** When no lap message is on its way inside persist, every lap message delivered to it
      has its lap in the table, or is one whose insert failed. */
  lemma SettledExactly(batchSize: int, es: seq<Event>, m: Wrapped)
    ensures AllLanes(Happens(Start(batchSize), es).persist)
    ensures var s := Happens(Start(batchSize), es).persist;
            LapsSettled(s) && m in s.accepted && IsLap(m) ==>
              (m in s.lapWritten <==> m !in s.lapLost) && (m in s.lapWritten ==> HasKey(s.laps, LapRowOf(m.msg).key))
  {
    hide Happens;
    AlwaysGenuine(batchSize, es, None);
    var s := Happens(Start(batchSize), es).persist;
    if LapsSettled(s) && m in s.accepted && IsLap(m) {
      Settled(s, m);
      PresentInState(s, LapRowOf(m.msg).key);
    }
  }

  /** So if every message of a burst of m laps was delivered, and not every delivery of it
      failed to be inserted, then laps 0 to m-1 are all there once persist has settled. */
  lemma BurstDelivered(batchSize: int, es: seq<Event>, truth: History, p: Datagram, m: nat)
    requires Stable(es, truth) && Reports(p.bytes, truth)
    requires IsPlayerHistory(p.bytes) && m <= MAX_LAPS && m <= CompletedLaps(p.bytes)
    requires AllLanes(Happens(Start(batchSize), es).persist) && LapsSettled(Happens(Start(batchSize), es).persist)
    requires forall i | 0 <= i < m ::
               WasDelivered(Happens(Start(batchSize), es).persist, LapMessages(p.bytes, m, p.clock)[i])
    ensures var laps, h := Happens(Start(batchSize), es).persist.laps, HeaderAt(p.bytes, 0);
            && UniqueKeys(laps)
            && forall i: nat | i < m :: TrueRow(truth, h.sessionUID, h.playerCarIndex, i) in laps
  {
    hide Happens, Stable, Reports, Decimal, LapsSettled;
    var s := Happens(Start(batchSize), es).persist;
    forall i | 0 <= i < m ensures WasInserted(s, LapMessages(p.bytes, m, p.clock)[i]) {
      assert WasDelivered(s, LapMessages(p.bytes, m, p.clock)[i]);
      var x :| x in s.accepted && x !in s.lapLost && x.msg == LapMessages(p.bytes, m, p.clock)[i];
      assert IsLap(x);
      SettledExactly(batchSize, es, x);
    }
    BurstStored(batchSize, es, truth, p, m);
  }

  lemma Settled(s: State, m: Wrapped)
    requires Persist.Inv(s) && LapsSettled(s) && m in s.accepted && IsLap(m)
    ensures m in s.lapWritten <==> m !in s.lapLost
  {
    hide LaneInv, Distinct;
    assert m in Arrived(s.lanes[SessionLap]);
    assert m in s.lanes[SessionLap].received;
  }

  /** Persist never goes down: what ingest sends always has its submessages. So every
      worker's mutex is free at every select. */
  lemma PersistStaysUp(batchSize: int, es: seq<Event>)
    ensures var s := Happens(Start(batchSize), es).persist;
            AllLanes(s) && !Down(s) && forall k: Kind :: Sound(k, s.lanes[k])
  {
    hide Happens, Persist.After, Init;
    AlwaysGenuine(batchSize, es, None);
    var w := Happens(Start(batchSize), es);
    var s := w.persist;
    Persist.HealthExactly(batchSize, w.actions);
    forall k: Kind, m | m in s.lanes[k].received ensures Complete(m.msg) {
      assert ArrivedOnce(s, s.lanes[k]);
      ReceivedArrived(s.lanes[k], m);
    }
  }

  // ---- restart ---------------------------------------------------------------

  /** After a restart the next history with completed laps sends all of them again, so a
      restart repairs whatever earlier bursts lost. */
  lemma RestartResends(w: World, p: Datagram)
    requires IsPlayerHistory(p.bytes) && 0 < CompletedLaps(p.bytes) <= MAX_LAPS
    ensures var w' := Next(Next(w, Restart), Packet(p));
            && w'.alive
            && forall m | m in LapMessages(p.bytes, CompletedLaps(p.bytes), p.clock) :: m in w'.transit
  {
    hide LapMessages, Decimal;
  }
}

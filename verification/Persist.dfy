/** The persist side as a step system: senders, bounded channels, workers, writes in
    flight and lap writers, interleaved in any order, up to a cancellation. */
module Persist {
  import opened Wrappers
  import opened Telemetry
  import opened Rows
  import opened CopyBatch
  import opened Worker
  import opened WorkerRuns
  import opened LapTable

  /** The capacity of each worker's channel. */
  const CAPACITY := 100

  /** A worker with its channel, and the messages it has received from it. */
  datatype Lane = Lane(channel: seq<Wrapped>, received: seq<Wrapped>, worker: Worker)

  /** `accepted` are the messages with data given to Add, `waiting` those whose goroutine
      has not sent yet. Each lap message received has a lap writer until its insert
      returns. */
  datatype State = State(
    batchSize: int,
    accepted: seq<Wrapped>,
    waiting: set<Wrapped>,
    lanes: map<Kind, Lane>,
    lapWriters: set<Wrapped>,
    lapWritten: seq<Wrapped>,
    lapLost: set<Wrapped>,
    laps: seq<LapRow>)

  function NewLane(k: Kind, batchSize: int): Lane {
    Lane([], [], NewWorker(k, batchSize))
  }

  function Init(batchSize: int): State {
    State(batchSize, [], {},
          map[Vehicle := NewLane(Vehicle, batchSize),
              Motion := NewLane(Motion, batchSize),
              LiveLap := NewLane(LiveLap, batchSize),
              SessionLap := NewLane(SessionLap, batchSize),
              ExtendedWheel := NewLane(ExtendedWheel, batchSize)],
          {}, [], {}, [])
  }

  predicate AllLanes(s: State) {
    forall k: Kind :: k in s.lanes
  }

  /** A panic in one worker ends the process. */
  predicate Down(s: State) {
    exists k: Kind :: k in s.lanes && s.lanes[k].worker.phase == Crashed
  }

  datatype Action =
    | Add(msg: GameTelemetry)
    | Send(m: Wrapped)
    | Receive(k: Kind)
    | TickFires(k: Kind)
    | WriteReturns(k: Kind, ok: bool)
    | InsertReturns(m: Wrapped, ok: bool)

  predicate Enabled(s: State, a: Action) {
    && AllLanes(s)
    && !Down(s)
    && match a
       case Add(_) => true
       case Send(m) =>
         && m in s.waiting
         && KindOf(m.msg).Some?
         && |s.lanes[KindOf(m.msg).value].channel| < CAPACITY
       case Receive(k) => s.lanes[k].worker.phase == Selecting && s.lanes[k].channel != []
       case TickFires(k) => s.lanes[k].worker.phase == Selecting
       case WriteReturns(k, _) => s.lanes[k].worker.phase.Writing?
       case InsertReturns(m, _) => m in s.lapWriters && IsLap(m)
  }

  function Step(s: State, a: Action): State
    requires Enabled(s, a)
  {
    match a
    case Add(msg) =>
      // each call has its own context; a message without data is dropped
      var m := Wrapped(|s.accepted|, msg);
      if KindOf(msg) == None then s
      else s.(accepted := s.accepted + [m], waiting := s.waiting + {m})
    case Send(m) =>
      var k := KindOf(m.msg).value;
      s.(waiting := s.waiting - {m}, lanes := s.lanes[k := LaneSend(s.lanes[k], m)])
    case Receive(k) =>
      var m := s.lanes[k].channel[0];
      s.(lanes := s.lanes[k := LaneReceive(s.lanes[k])],
         lapWriters := if IsLap(m) then s.lapWriters + {m} else s.lapWriters)
    case TickFires(k) => s.(lanes := s.lanes[k := LaneTick(s.lanes[k])])
    case WriteReturns(k, ok) => s.(lanes := s.lanes[k := LaneFinish(s.lanes[k], ok)])
    case InsertReturns(m, ok) =>
      if ok then
        s.(lapWriters := s.lapWriters - {m}, lapWritten := s.lapWritten + [m], laps := Insert(s.laps, LapRowOf(m.msg)))
      else
        s.(lapWriters := s.lapWriters - {m}, lapLost := s.lapLost + {m})
  }

  function LaneSend(l: Lane, m: Wrapped): Lane {
    l.(channel := l.channel + [m])
  }

  function LaneReceive(l: Lane): Lane
    requires l.worker.phase == Selecting && l.channel != []
  {
    Lane(l.channel[1..], l.received + [l.channel[0]], Select(l.worker, Received(l.channel[0])))
  }

  function LaneTick(l: Lane): Lane
    requires l.worker.phase == Selecting
  {
    l.(worker := Select(l.worker, Tick))
  }

  function LaneFinish(l: Lane, ok: bool): Lane
    requires l.worker.phase.Writing?
  {
    l.(worker := Finish(l.worker, ok))
  }

  /** Any interleaving: an action that is not enabled cannot happen. */
  function After(s: State, actions: seq<Action>): State {
    if actions == [] then s
    else
      var s', a := After(s, actions[..|actions| - 1]), actions[|actions| - 1];
      if Enabled(s', a) then Step(s', a) else s'
  }

  // ---- invariant of a lane ---------------------------------------------------

  /** The messages that ever got into the lane's channel, in order. */
  function Arrived(l: Lane): seq<Wrapped> {
    l.received + l.channel
  }

  predicate LaneInv(k: Kind, l: Lane, batchSize: int) {
    && l.worker.table == k
    && l.worker.batchSize == batchSize
    && |l.channel| <= CAPACITY
    && (forall m | m in Arrived(l) :: KindOf(m.msg) == Some(k))
    && Bounded(l.worker)
    && (l.worker.phase == Crashed ==> exists m :: m in l.received && !Complete(m.msg))
    && (l.worker.phase != Crashed ==> Sound(k, l))
  }

  /** A lane that has not crashed: its mutex is free, and the worker holds exactly what
      was received, as rows or, in the lap lane, as lap writers. */
  predicate Sound(k: Kind, l: Lane) {
    && !l.worker.lockHeld
    && (l.worker.phase == Selecting || (l.worker.phase.Writing? && !l.worker.phase.last))
    && Contents(l.worker) == (if k == SessionLap then [] else l.received)
    && l.worker.spawned == (if k == SessionLap then l.received else [])
    && (forall m | m in l.received :: Complete(m.msg))
  }

  lemma NewLaneInv(k: Kind, batchSize: int)
    ensures LaneInv(k, NewLane(k, batchSize), batchSize)
  {
  }

  lemma SendKeeps(k: Kind, l: Lane, batchSize: int, m: Wrapped)
    requires LaneInv(k, l, batchSize) && |l.channel| < CAPACITY && KindOf(m.msg) == Some(k)
    ensures LaneInv(k, LaneSend(l, m), batchSize)
    ensures Arrived(LaneSend(l, m)) == Arrived(l) + [m]
  {
    hide Bounded, Contents;
    assert Arrived(LaneSend(l, m)) == Arrived(l) + [m];
  }

  lemma FinishReturns(k: Kind, l: Lane, batchSize: int, ok: bool)
    requires LaneInv(k, l, batchSize) && l.worker.phase.Writing?
    ensures LaneInv(k, LaneFinish(l, ok), batchSize)
    ensures LaneFinish(l, ok).worker.phase == Selecting
  {
    hide Bounded, Contents;
    FinishKeeps(l.worker, ok);
  }

  lemma TickKeeps(k: Kind, l: Lane, batchSize: int)
    requires LaneInv(k, l, batchSize) && l.worker.phase == Selecting
    ensures LaneInv(k, LaneTick(l), batchSize)
    ensures LaneTick(l).worker.phase != Crashed
  {
    hide Bounded, Contents;
    SelectKeeps(l.worker, Tick);
    HealthySelect(l.worker, Tick);
    assert Contents(l.worker) + [] == Contents(l.worker) && l.worker.spawned + [] == l.worker.spawned;
  }

  lemma ReceiveKeeps(k: Kind, l: Lane, batchSize: int)
    requires LaneInv(k, l, batchSize) && l.worker.phase == Selecting && l.channel != []
    ensures LaneInv(k, LaneReceive(l), batchSize)
    ensures Arrived(LaneReceive(l)) == Arrived(l)
    ensures LaneReceive(l).worker.phase == Crashed <==> !Complete(l.channel[0].msg)
  {
    hide Bounded, Contents, BuildRow, HasRow;
    var m, l' := l.channel[0], LaneReceive(l);
    assert Arrived(l') == Arrived(l);
    assert m in Arrived(l);
    SelectKeeps(l.worker, Received(m));
    HealthySelect(l.worker, Received(m));
    Routed(k, m, l.worker);
    assert m in l'.received;
    if k == SessionLap {
      assert Contents(l.worker) + [] == Contents(l.worker);
    } else {
      assert l.worker.spawned + [] == l.worker.spawned;
    }
  }

  /** A message in the lane of its kind is a lap for the lap writers, has a row, or
      brings the worker down. */
  lemma Routed(k: Kind, m: Wrapped, w: Worker)
    requires KindOf(m.msg) == Some(k) && w.table == k && w.phase == Selecting && !w.lockHeld
    ensures IsLap(m) <==> k == SessionLap
    ensures HasRow(m, k) <==> k != SessionLap && Complete(m.msg)
    ensures k == SessionLap ==> Complete(m.msg)
    ensures Select(w, Received(m)).phase == Crashed <==> !Complete(m.msg)
    ensures Complete(m.msg) ==> Select(w, Received(m)).phase == Selecting || Select(w, Received(m)).phase.Writing?
  {
    hide BuildRow;
    BuildExactly(m.msg, k);
  }

  // ---- invariant of the whole system -----------------------------------------

  function LapRows(ms: seq<Wrapped>): seq<LapRow> {
    if ms == [] then []
    else LapRows(ms[..|ms| - 1]) + if IsLap(ms[|ms| - 1]) then [LapRowOf(ms[|ms| - 1].msg)] else []
  }

  /** Each lap message received is in exactly one of the three places, and the lap table
      is the result of the inserts that succeeded, in their order. */
  ghost predicate LapInv(s: State, received: seq<Wrapped>) {
    && (forall m :: m in received <==> m in s.lapWriters || m in s.lapWritten || m in s.lapLost)
    && (forall m | m in s.lapWriters :: m !in s.lapWritten && m !in s.lapLost)
    && (forall m | m in s.lapLost :: m !in s.lapWritten)
    && Distinct(s.lapWritten)
    && s.laps == InsertAll([], LapRows(s.lapWritten))
  }

  /** Contexts number the accepted messages. */
  predicate Numbered(ms: seq<Wrapped>) {
    forall i | 0 <= i < |ms| :: ms[i].ctx == i && KindOf(ms[i].msg).Some?
  }

  /** What has arrived in a lane was accepted, once, and is no longer waiting. */
  predicate ArrivedOnce(s: State, l: Lane) {
    && Distinct(Arrived(l))
    && forall m | m in Arrived(l) :: m in s.accepted && m !in s.waiting
  }

  ghost predicate Inv(s: State) {
    && AllLanes(s)
    && (forall k: Kind :: LaneInv(k, s.lanes[k], s.batchSize))
    && (forall k: Kind :: ArrivedOnce(s, s.lanes[k]))
    && Numbered(s.accepted)
    && (forall m | m in s.waiting :: m in s.accepted)
    && (forall m | m in s.accepted :: m in s.waiting || m in Arrived(s.lanes[KindOf(m.msg).value]))
    && LapInv(s, s.lanes[SessionLap].received)
  }

  lemma InitInv(batchSize: int)
    ensures Inv(Init(batchSize))
  {
    hide LaneInv;
    forall k: Kind ensures k in Init(batchSize).lanes && Init(batchSize).lanes[k] == NewLane(k, batchSize) {
      match k
      case Vehicle =>
      case Motion =>
      case LiveLap =>
      case SessionLap =>
      case ExtendedWheel =>
    }
    forall k: Kind ensures LaneInv(k, NewLane(k, batchSize), batchSize) {
      NewLaneInv(k, batchSize);
    }
  }

  lemma AddStep(s: State, msg: GameTelemetry)
    requires Inv(s) && Enabled(s, Add(msg))
    ensures Inv(Step(s, Add(msg)))
  {
    hide LaneInv, KindOf, Arrived, LapInv, Distinct;
    var m, s' := Wrapped(|s.accepted|, msg), Step(s, Add(msg));
    if KindOf(msg).Some? {
      assert m !in s.accepted;
      assert LapInv(s', s.lanes[SessionLap].received) by { LapUnchanged(s, s'); }
      assert forall x :: x in s'.accepted <==> x in s.accepted || x == m;
    }
  }

  /** Steps that leave the lap fields alone. */
  lemma LapUnchanged(s: State, s': State)
    requires SessionLap in s.lanes && LapInv(s, s.lanes[SessionLap].received)
    requires s'.lapWriters == s.lapWriters && s'.lapWritten == s.lapWritten
    requires s'.lapLost == s.lapLost && s'.laps == s.laps
    ensures LapInv(s', s.lanes[SessionLap].received)
  {
  }

  /** A lane moves on by itself: nothing arrives, nothing else changes. */
  lemma LaneMoves(s: State, k: Kind, l: Lane)
    requires Inv(s) && LaneInv(k, l, s.batchSize) && Arrived(l) == Arrived(s.lanes[k])
    requires k == SessionLap ==> l.received == s.lanes[k].received
    ensures Inv(s.(lanes := s.lanes[k := l]))
  {
    hide LaneInv, KindOf, Arrived, Distinct;
    LapUnchanged(s, s.(lanes := s.lanes[k := l]));
  }

  lemma SendStep(s: State, m: Wrapped)
    requires Inv(s) && Enabled(s, Send(m))
    ensures Inv(Step(s, Send(m)))
  {
    hide LaneInv, KindOf, Down;
    var k, s' := KindOf(m.msg).value, Step(s, Send(m));
    SendKeeps(k, s.lanes[k], s.batchSize, m);
    LapUnchanged(s, s');
    assert m !in Arrived(s.lanes[k]);
    ArrivedMore(s.lanes[k], s'.lanes[k], m);
    SendOnce(s, m);
    hide Arrived, ArrivedOnce, LapInv;
  }

  /** What was sent is no longer waiting and has arrived in one lane only. */
  lemma SendOnce(s: State, m: Wrapped)
    requires Inv(s) && Enabled(s, Send(m))
    requires Distinct(Arrived(Step(s, Send(m)).lanes[KindOf(m.msg).value]))
    requires forall x :: x in Arrived(Step(s, Send(m)).lanes[KindOf(m.msg).value])
                    <==> x in Arrived(s.lanes[KindOf(m.msg).value]) || x == m
    ensures forall j: Kind :: ArrivedOnce(Step(s, Send(m)), Step(s, Send(m)).lanes[j])
  {
    hide LaneInv, KindOf, LapInv, LaneSend, Down, Distinct;
    forall j: Kind ensures ArrivedOnce(Step(s, Send(m)), Step(s, Send(m)).lanes[j]) {
      assert m !in Arrived(s.lanes[j]);
      hide Arrived;
    }
  }

  lemma ArrivedMore(l: Lane, l': Lane, m: Wrapped)
    requires Arrived(l') == Arrived(l) + [m] && m !in Arrived(l) && Distinct(Arrived(l))
    ensures Distinct(Arrived(l'))
    ensures forall x :: x in Arrived(l') <==> x in Arrived(l) || x == m
  {
    hide Arrived;
    ElementsOfLast(Arrived(l), m);
    assert Arrived(l')[|Arrived(l)|] == m;
    assert forall x | x in Arrived(l) :: x in Arrived(l) + [m];
  }

  lemma ReceiveStep(s: State, k: Kind)
    requires Inv(s) && Enabled(s, Receive(k))
    ensures Inv(Step(s, Receive(k)))
  {
    hide LaneInv, Distinct;
    var m := s.lanes[k].channel[0];
    ReceiveKeeps(k, s.lanes[k], s.batchSize);
    assert m in Arrived(s.lanes[k]);
    LaneKind(k, s.lanes[k], s.batchSize, m);
    if k == SessionLap {
      LapReceived(s);
    } else {
      LaneMoves(s, k, LaneReceive(s.lanes[k]));
    }
  }

  lemma LaneKind(k: Kind, l: Lane, batchSize: int, m: Wrapped)
    requires LaneInv(k, l, batchSize) && m in Arrived(l)
    ensures IsLap(m) <==> k == SessionLap
  {
    hide Bounded, Sound;
  }

  lemma LapReceived(s: State)
    requires Inv(s) && Enabled(s, Receive(SessionLap)) && IsLap(s.lanes[SessionLap].channel[0])
    requires LaneInv(SessionLap, LaneReceive(s.lanes[SessionLap]), s.batchSize)
    requires Arrived(LaneReceive(s.lanes[SessionLap])) == Arrived(s.lanes[SessionLap])
    ensures Inv(Step(s, Receive(SessionLap)))
  {
    hide LaneInv;
    var l, s' := s.lanes[SessionLap], Step(s, Receive(SessionLap));
    var m := l.channel[0];
    ChannelNotReceived(l);
    assert forall x :: x in l.received + [m] <==> x in l.received || x == m;
    assert LapInv(s', s'.lanes[SessionLap].received);
    hide Arrived, Distinct, LapInv, KindOf;
  }

  lemma ChannelNotReceived(l: Lane)
    requires Distinct(Arrived(l)) && l.channel != []
    ensures l.channel[0] !in l.received
  {
    assert Arrived(l)[|l.received|] == l.channel[0];
    forall i | 0 <= i < |l.received| ensures l.received[i] != l.channel[0] {
      assert Arrived(l)[i] == l.received[i];
    }
  }

  lemma InsertStep(s: State, m: Wrapped, ok: bool)
    requires Inv(s) && Enabled(s, InsertReturns(m, ok))
    ensures Inv(Step(s, InsertReturns(m, ok)))
  {
    hide LaneInv, KindOf, Arrived;
    var s' := Step(s, InsertReturns(m, ok));
    if ok {
      ElementsOfLast(s.lapWritten, m);
      assert s'.lapWritten[..|s'.lapWritten| - 1] == s.lapWritten;
      var rs, r := LapRows(s.lapWritten), LapRowOf(m.msg);
      assert LapRows(s'.lapWritten) == rs + [r];
      assert (rs + [r])[..|rs|] == rs;
      assert forall x :: x in s'.lapWritten <==> x in s.lapWritten || x == m;
    }
    assert LapInv(s', s'.lanes[SessionLap].received);
    hide LapInv, Distinct;
  }

  lemma StepKeeps(s: State, a: Action)
    requires Inv(s) && Enabled(s, a)
    ensures Inv(Step(s, a))
  {
    match a
    case Add(msg) => AddStep(s, msg);
    case Send(m) => SendStep(s, m);
    case Receive(k) => ReceiveStep(s, k);
    case TickFires(k) =>
      hide LaneInv;
      TickKeeps(k, s.lanes[k], s.batchSize);
      LaneMoves(s, k, LaneTick(s.lanes[k]));
    case WriteReturns(k, ok) =>
      hide LaneInv;
      FinishReturns(k, s.lanes[k], s.batchSize, ok);
      LaneMoves(s, k, LaneFinish(s.lanes[k], ok));
    case InsertReturns(m, ok) => InsertStep(s, m, ok);
  }

  /** The invariant holds in every reachable state. */
  lemma {:induction false} Always(batchSize: int, actions: seq<Action>)
    ensures Inv(After(Init(batchSize), actions)) && After(Init(batchSize), actions).batchSize == batchSize
  {
    hide Inv, Enabled;
    if actions == [] {
      InitInv(batchSize);
    } else {
      var s, a := After(Init(batchSize), actions[..|actions| - 1]), actions[|actions| - 1];
      Always(batchSize, actions[..|actions| - 1]);
      if Enabled(s, a) {
        StepKeeps(s, a);
      }
    }
  }

  // ---- conservation ----------------------------------------------------------

  function Count(m: Wrapped, ms: seq<Wrapped>): nat {
    multiset(ms)[m]
  }

  function One(b: bool): nat {
    if b then 1 else 0
  }

  /** How often a message is in a lane: queued, buffered, being written, written or lost. */
  function InLane(m: Wrapped, l: Lane): nat {
    Count(m, l.channel) + Count(m, l.worker.buffer) + Count(m, InFlight(l.worker))
    + Count(m, Written(l.worker.log)) + Count(m, Lost(l.worker.log))
  }

  /** How often a message is anywhere. */
  function Places(s: State, m: Wrapped): nat
    requires AllLanes(s)
  {
    One(m in s.waiting)
    + InLane(m, s.lanes[Vehicle]) + InLane(m, s.lanes[Motion]) + InLane(m, s.lanes[LiveLap])
    + InLane(m, s.lanes[SessionLap]) + InLane(m, s.lanes[ExtendedWheel])
    + One(m in s.lapWriters) + Count(m, s.lapWritten) + One(m in s.lapLost)
  }

  lemma {:induction false} DistinctCount(ms: seq<Wrapped>, m: Wrapped)
    requires Distinct(ms)
    ensures Count(m, ms) == One(m in ms)
  {
    if ms != [] {
      var front, last := ms[..|ms| - 1], ms[|ms| - 1];
      assert ms == front + [last];
      ElementsOfLast(front, last);
      DistinctCount(front, m);
    }
  }

  lemma {:induction false} LogCount(log: seq<Batch>, m: Wrapped)
    ensures Count(m, Attempted(log)) == Count(m, Written(log)) + Count(m, Lost(log))
  {
    if log != [] {
      LogCount(log[..|log| - 1], m);
    }
  }

  /** In a lane that is not the lap lane a message is in exactly one place if it arrived
      there, and nowhere if not; in the lap lane it is in the channel or has left. */
  lemma LaneCount(k: Kind, l: Lane, batchSize: int, m: Wrapped)
    requires LaneInv(k, l, batchSize) && l.worker.phase != Crashed && Distinct(Arrived(l))
    ensures k != SessionLap ==> InLane(m, l) == One(m in Arrived(l))
    ensures k == SessionLap ==> InLane(m, l) == One(m in Arrived(l)) - One(m in l.received)
  {
    hide Bounded, Attempted, Written, Lost;
    LogCount(l.worker.log, m);
    var contents := Contents(l.worker);
    assert Count(m, contents)
        == Count(m, Attempted(l.worker.log)) + Count(m, InFlight(l.worker)) + Count(m, l.worker.buffer);
    assert Count(m, Arrived(l)) == Count(m, l.received) + Count(m, l.channel);
    DistinctCount(Arrived(l), m);
    if k == SessionLap {
      DistinctPrefix(l.received, l.channel);
      DistinctCount(l.received, m);
    }
  }

  lemma DistinctPrefix(xs: seq<Wrapped>, ys: seq<Wrapped>)
    requires Distinct(xs + ys)
    ensures Distinct(xs)
  {
    forall i, j | 0 <= i < j < |xs| ensures xs[i] != xs[j] {
      assert (xs + ys)[i] != (xs + ys)[j];
    }
  }

  /** A message arrives at most in the lane of its kind. */
  lemma ElsewhereNot(s: State, m: Wrapped, k: Kind)
    requires Inv(s) && KindOf(m.msg) != Some(k)
    ensures m !in Arrived(s.lanes[k])
  {
    hide Bounded, Sound, LapInv;
  }

  lemma ReceivedArrived(l: Lane, m: Wrapped)
    ensures m in l.received ==> m in Arrived(l)
  {
  }

  /** Under any interleaving of senders, receives, ticks, writes and lap writers, as long
      as no worker has panicked, every accepted message is in exactly one place, once:
      waiting to be sent, in the channel of its kind, in that worker's buffer, in the batch
      being written, written, lost in a failed write, with a lap writer, inserted, or lost
      in a failed insert. A message that was never accepted is nowhere. */
  lemma Conservation(batchSize: int, actions: seq<Action>, m: Wrapped)
    ensures AllLanes(After(Init(batchSize), actions))
    ensures !Down(After(Init(batchSize), actions)) ==>
              Places(After(Init(batchSize), actions), m) == One(m in After(Init(batchSize), actions).accepted)
  {
    hide After, Init;
    Always(batchSize, actions);
    if !Down(After(Init(batchSize), actions)) {
      PlacesInState(After(Init(batchSize), actions), m);
    }
  }

  lemma PlacesInState(s: State, m: Wrapped)
    requires Inv(s) && !Down(s)
    ensures Places(s, m) == One(m in s.accepted)
  {
    hide LaneInv, Arrived, InLane, KindOf, Distinct;
    forall k: Kind
      ensures k != SessionLap ==> InLane(m, s.lanes[k]) == One(m in Arrived(s.lanes[k]))
      ensures KindOf(m.msg) != Some(k) ==> m !in Arrived(s.lanes[k])
    {
      LaneCount(k, s.lanes[k], s.batchSize, m);
      if KindOf(m.msg) != Some(k) {
        ElsewhereNot(s, m, k);
      }
    }
    LaneCount(SessionLap, s.lanes[SessionLap], s.batchSize, m);
    ReceivedArrived(s.lanes[SessionLap], m);
    LapPlaces(s, m);
    OnePlace(s, m);
  }

  /** The lap writers' places hold what the lap worker received. */
  lemma LapPlaces(s: State, m: Wrapped)
    requires SessionLap in s.lanes && LapInv(s, s.lanes[SessionLap].received)
    ensures One(m in s.lapWriters) + Count(m, s.lapWritten) + One(m in s.lapLost) == One(m in s.lanes[SessionLap].received)
  {
    DistinctCount(s.lapWritten, m);
  }

  lemma OnePlace(s: State, m: Wrapped)
    requires AllLanes(s)
    requires m in s.waiting ==> m in s.accepted
    requires forall k: Kind :: m in Arrived(s.lanes[k]) ==> m in s.accepted && m !in s.waiting
    requires forall k: Kind :: KindOf(m.msg) != Some(k) ==> m !in Arrived(s.lanes[k])
    requires m in s.accepted ==> KindOf(m.msg).Some? && (m in s.waiting || m in Arrived(s.lanes[KindOf(m.msg).value]))
    ensures One(m in s.waiting)
            + One(m in Arrived(s.lanes[Vehicle])) + One(m in Arrived(s.lanes[Motion]))
            + One(m in Arrived(s.lanes[LiveLap])) + One(m in Arrived(s.lanes[SessionLap]))
            + One(m in Arrived(s.lanes[ExtendedWheel]))
         == One(m in s.accepted)
  {
    hide Arrived;
    match KindOf(m.msg)
    case None =>
      forall k: Kind ensures m !in Arrived(s.lanes[k]) {
      }
    case Some(k) =>
      forall j: Kind | j != k ensures m !in Arrived(s.lanes[j]) {
      }
      match k
      case Vehicle =>
      case Motion =>
      case LiveLap =>
      case SessionLap =>
      case ExtendedWheel =>
  }

  // ---- what else every reachable state satisfies -----------------------------

  /** No channel ever holds more than its capacity, every buffer is below the batch size,
      every batch in the log or in flight has between one row and a full batch, and the
      lap lane never buffers or copies anything. */
  lemma BoundsAlways(batchSize: int, actions: seq<Action>, k: Kind)
    ensures var s := After(Init(batchSize), actions);
            && k in s.lanes
            && |s.lanes[k].channel| <= 100
            && Bounded(s.lanes[k].worker)
            && WithinBatch(s.lanes[k].worker, if batchSize > 1 then batchSize else 1)
            && (k == SessionLap && s.lanes[k].worker.phase != Crashed ==>
                  s.lanes[k].worker.buffer == [] && s.lanes[k].worker.log == [] && !s.lanes[k].worker.phase.Writing?)
  {
    hide After, Init;
    Always(batchSize, actions);
    var s := After(Init(batchSize), actions);
    assert LaneInv(k, s.lanes[k], s.batchSize);
    BoundedIsWithin(s.lanes[k].worker);
    if k == SessionLap && s.lanes[k].worker.phase != Crashed {
      NothingAttempted(s.lanes[k].worker);
    }
  }

  /** Fewer than n rows are buffered, and 1 to n in each batch attempted or in flight. */
  predicate WithinBatch(w: Worker, n: int) {
    && |w.buffer| < n
    && (w.phase.Writing? ==> 1 <= |w.phase.batch| <= n)
    && (forall i | 0 <= i < |w.log| :: 1 <= |w.log[i].rows| <= n)
  }

  lemma BoundedIsWithin(w: Worker)
    requires Bounded(w)
    ensures WithinBatch(w, if w.batchSize > 1 then w.batchSize else 1)
  {
    forall i | 0 <= i < |w.log| ensures 1 <= |w.log[i].rows| <= Cap(w) {
      assert Sized(w.log[i].rows, w);
    }
  }

  lemma NothingAttempted(w: Worker)
    requires Bounded(w) && Contents(w) == []
    ensures w.buffer == [] && w.log == [] && !w.phase.Writing?
  {
  }

  /** The process goes down exactly by receiving a message with a missing submessage;
      until then every mutex is free whenever its worker selects, each worker of a COPY
      table has taken the rows of exactly the messages received, in order, and no worker
      ever waits for its own mutex. */
  lemma HealthExactly(batchSize: int, actions: seq<Action>)
    ensures var s := After(Init(batchSize), actions);
            && AllLanes(s)
            && (Down(s) <==> exists k: Kind, m | m in s.lanes[k].received :: !Complete(m.msg))
            && (!Down(s) ==> forall k: Kind :: Sound(k, s.lanes[k]))
  {
    hide After, Init;
    Always(batchSize, actions);
    var s := After(Init(batchSize), actions);
    HealthInState(s);
  }

  lemma HealthInState(s: State)
    requires Inv(s)
    ensures Down(s) <==> exists k: Kind, m | m in s.lanes[k].received :: !Complete(m.msg)
    ensures !Down(s) ==> forall k: Kind :: Sound(k, s.lanes[k])
  {
    hide Complete, Bounded, Arrived, LapInv;
  }

  // ---- each lane is a run of its worker --------------------------------------

  /** The message that a select receives, and those that a script receives, in order. */
  function MessageOf(c: Choice): seq<Wrapped> {
    if c.Received? then [c.m] else []
  }

  function MessagesOf(es: seq<Event>): seq<Wrapped> {
    if es == [] then [] else MessagesOf(es[..|es| - 1]) + MessageOf(es[|es| - 1].choice)
  }

  /** However the lanes interleave, each worker has done exactly what a run of it alone
      does on the messages that the lane has received: between writes it is in the state
      after the events es, and during a write it has made the select c from there. */
  ghost predicate IsWorkerRun(l: Lane, k: Kind, batchSize: int, es: seq<Event>, c: Choice) {
    var r := Run(NewWorker(k, batchSize), es);
    if l.worker.phase.Writing? then
      r.phase == Selecting && l.worker == Select(r, c) && l.received == MessagesOf(es) + MessageOf(c)
    else
      l.worker == r && l.received == MessagesOf(es)
  }

  /** The iterations that a worker has finished, and the choice whose write is in flight
      if one is. */
  datatype Script = Script(es: seq<Event>, c: Choice)

  function Chosen(p: Script, w: Worker, c: Choice): Script
    requires w.phase == Selecting
  {
    if Select(w, c).phase.Writing? then Script(p.es, c) else Script(p.es + [Event(c, true)], c)
  }

  /** What one action adds to the script of a lane's worker: it takes the next message
      whenever it selects and one is there, a tick whenever it selects, and a write's
      outcome whenever it writes. */
  function ScriptStep(p: Script, s: State, a: Action, k: Kind): Script {
    if Down(s) || k !in s.lanes then p
    else
      var l := s.lanes[k];
      if a == Receive(k) && l.worker.phase == Selecting && l.channel != [] then
        Chosen(p, l.worker, Received(l.channel[0]))
      else if a == TickFires(k) && l.worker.phase == Selecting then Chosen(p, l.worker, Tick)
      else if a.WriteReturns? && a.k == k && l.worker.phase.Writing? then Script(p.es + [Event(p.c, a.ok)], p.c)
      else p
  }

  function ScriptOf(s: State, actions: seq<Action>, k: Kind): Script {
    if actions == [] then Script([], Tick)
    else
      var front := actions[..|actions| - 1];
      ScriptStep(ScriptOf(s, front, k), After(s, front), actions[|actions| - 1], k)
  }

  /** The script of each worker can be read off the actions, and the worker's state is that
      of its own run over it. */
  lemma {:induction false} LaneIsRun(batchSize: int, actions: seq<Action>, k: Kind)
    ensures AllLanes(After(Init(batchSize), actions))
    ensures var p := ScriptOf(Init(batchSize), actions, k);
            IsWorkerRun(After(Init(batchSize), actions).lanes[k], k, batchSize, p.es, p.c)
  {
    Always(batchSize, actions);
    assert AllLanes(After(Init(batchSize), actions));
    hide Inv, Enabled, Step, IsWorkerRun, ScriptStep;
    if actions == [] {
      NewLaneIsRun(k, batchSize);
    } else {
      var front, a := actions[..|actions| - 1], actions[|actions| - 1];
      LaneIsRun(batchSize, front, k);
      LaneStep(After(Init(batchSize), front), a, k, batchSize, ScriptOf(Init(batchSize), front, k));
    }
  }

  lemma NewLaneIsRun(k: Kind, batchSize: int)
    ensures IsWorkerRun(Init(batchSize).lanes[k], k, batchSize, [], Tick)
  {
    match k
    case Vehicle =>
    case Motion =>
    case LiveLap =>
    case SessionLap =>
    case ExtendedWheel =>
  }

  lemma LaneStep(s: State, a: Action, k: Kind, batchSize: int, p: Script)
    requires AllLanes(s) && IsWorkerRun(s.lanes[k], k, batchSize, p.es, p.c)
    ensures var s', p' := if Enabled(s, a) then Step(s, a) else s, ScriptStep(p, s, a, k);
            k in s'.lanes && IsWorkerRun(s'.lanes[k], k, batchSize, p'.es, p'.c)
  {
    hide Down, Select, Finish, IsWorkerRun, Insert, LapRowOf;
    var l := s.lanes[k];
    if Enabled(s, a) {
      if a == Receive(k) {
        Selected(l, LaneReceive(l), k, batchSize, p, Received(l.channel[0]));
      } else if a == TickFires(k) {
        assert l.received + [] == l.received;
        Selected(l, LaneTick(l), k, batchSize, p, Tick);
      } else if a.WriteReturns? && a.k == k {
        Returned(l, k, batchSize, p.es, p.c, a.ok);
      } else {
        OtherLane(s, a, k);
        SameRun(l, Step(s, a).lanes[k], k, batchSize, p.es, p.c);
      }
    }
  }

  lemma OtherLane(s: State, a: Action, k: Kind)
    requires Enabled(s, a)
    requires a != Receive(k) && a != TickFires(k) && !(a.WriteReturns? && a.k == k)
    ensures k in Step(s, a).lanes
    ensures Step(s, a).lanes[k].worker == s.lanes[k].worker && Step(s, a).lanes[k].received == s.lanes[k].received
  {
    hide Down, Select, Finish, Insert;
  }

  lemma SameRun(l: Lane, l': Lane, k: Kind, batchSize: int, es: seq<Event>, c: Choice)
    requires IsWorkerRun(l, k, batchSize, es, c) && l'.worker == l.worker && l'.received == l.received
    ensures IsWorkerRun(l', k, batchSize, es, c)
  {
    hide Select;
  }

  lemma Selected(l: Lane, l': Lane, k: Kind, batchSize: int, p: Script, c: Choice)
    requires l.worker.phase == Selecting && IsWorkerRun(l, k, batchSize, p.es, p.c)
    requires l'.worker == Select(l.worker, c) && l'.received == l.received + MessageOf(c)
    ensures IsWorkerRun(l', k, batchSize, Chosen(p, l.worker, c).es, Chosen(p, l.worker, c).c)
  {
    hide Select, Finish;
    var es' := p.es + [Event(c, true)];
    assert es'[..|p.es|] == p.es;
  }

  lemma Returned(l: Lane, k: Kind, batchSize: int, es: seq<Event>, c: Choice, ok: bool)
    requires l.worker.phase.Writing? && IsWorkerRun(l, k, batchSize, es, c)
    ensures IsWorkerRun(LaneFinish(l, ok), k, batchSize, es + [Event(c, ok)], c)
  {
    hide Select;
    assert (es + [Event(c, ok)])[..|es|] == es;
    FinishPhase(l.worker, ok);
  }

  /** When a lane of a COPY table is idle and none of its writes failed, the table has
      grown by exactly the messages that arrived in the lane, each once, in order. */
  lemma IdleLaneIsStored(batchSize: int, actions: seq<Action>, k: Kind)
    requires k != SessionLap
    ensures var s := After(Init(batchSize), actions);
            && AllLanes(s)
            && (!Down(s) && s.lanes[k].worker.phase == Selecting
                && s.lanes[k].channel == [] && s.lanes[k].worker.buffer == [] && Failures(s.lanes[k].worker.log) == 0 ==>
                  Written(s.lanes[k].worker.log) == Arrived(s.lanes[k]))
  {
    hide After, Init, Written, Failures, Bounded, Contents;
    Always(batchSize, actions);
    var s := After(Init(batchSize), actions);
    var w := s.lanes[k].worker;
    if !Down(s) && w.phase == Selecting && s.lanes[k].channel == [] && w.buffer == [] && Failures(w.log) == 0 {
      assert LaneInv(k, s.lanes[k], s.batchSize);
      IdleWorker(w);
    }
  }
}

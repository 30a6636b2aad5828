/** What the persist side's runs deliver: exactly what was added is accepted, exactly the
    outcomes that happened are recorded, and from every reachable state everything
    accepted can still be stored. */
module Progress {
  import opened Wrappers
  import opened Telemetry
  import opened Worker
  import opened WorkerRuns
  import opened LapTable
  import opened Persist
  import opened EndToEnd

  // ---- what happened, read off the actions -----------------------------------

  /** The messages of the calls to Add that carry data, as long as the process is up. */
  function Added(s: State, actions: seq<Action>): seq<GameTelemetry> {
    if actions == [] then []
    else
      var front, a := actions[..|actions| - 1], actions[|actions| - 1];
      Added(s, front)
      + if a.Add? && !a.msg.data.NoData? && !Down(After(s, front)) then [a.msg] else []
  }

  /** The accepted messages are exactly the added ones, in order, numbered by position. */
  lemma {:induction false} AcceptedExactly(batchSize: int, actions: seq<Action>)
    ensures var accepted, added := After(Init(batchSize), actions).accepted, Added(Init(batchSize), actions);
            && |accepted| == |added|
            && forall i | 0 <= i < |added| :: accepted[i] == Wrapped(i, added[i])
  {
    hide After, Added, Init, Down, NextStep;
    if actions == [] {
      NothingYet(batchSize);
    } else {
      var front, a := actions[..|actions| - 1], actions[|actions| - 1];
      assert actions == front + [a];
      AcceptedExactly(batchSize, front);
      LanesAlways(batchSize, front);
      AcceptedStep(After(Init(batchSize), front), a);
      AfterLast(Init(batchSize), front, a);
      AddedLast(Init(batchSize), front, a);
    }
  }

  lemma NothingYet(batchSize: int)
    ensures After(Init(batchSize), []) == Init(batchSize) && Init(batchSize).accepted == []
    ensures Added(Init(batchSize), []) == []
  {
  }

  lemma LanesAlways(batchSize: int, actions: seq<Action>)
    ensures AllLanes(After(Init(batchSize), actions))
  {
    hide After, Init;
    Always(batchSize, actions);
  }

  lemma AddedLast(s: State, actions: seq<Action>, a: Action)
    ensures Added(s, actions + [a])
         == Added(s, actions)
            + if a.Add? && !a.msg.data.NoData? && !Down(After(s, actions)) then [a.msg] else []
  {
    hide After, Down;
    assert (actions + [a])[..|actions|] == actions;
  }

  lemma AfterLast(s: State, actions: seq<Action>, a: Action)
    ensures After(s, actions + [a]) == NextStep(After(s, actions), a)
  {
    hide Enabled, Step;
    assert (actions + [a])[..|actions|] == actions;
  }

  /** One action, if it can happen. */
  function NextStep(s: State, a: Action): State {
    if Enabled(s, a) then Step(s, a) else s
  }

  lemma AcceptedStep(s: State, a: Action)
    requires AllLanes(s)
    ensures NextStep(s, a).accepted
         == s.accepted + if a.Add? && !a.msg.data.NoData? && !Down(s) then [Wrapped(|s.accepted|, a.msg)] else []
  {
    hide Down, LaneSend, LaneReceive, LaneTick, LaneFinish, LapRowOf;
    assert s.accepted + [] == s.accepted;
  }

  /** Right after its call to Add a message with data is waiting to be sent. */
  lemma AddedIsWaiting(batchSize: int, actions: seq<Action>, msg: GameTelemetry)
    requires !msg.data.NoData? && !Down(After(Init(batchSize), actions))
    ensures var m := Wrapped(|After(Init(batchSize), actions).accepted|, msg);
            m in After(Init(batchSize), actions + [Add(msg)]).waiting
  {
    hide After, Init, Down;
    LanesAlways(batchSize, actions);
    AfterLast(Init(batchSize), actions, Add(msg));
  }

  /** The lap messages whose insert has returned with this outcome, in order. */
  function Inserted(s: State, actions: seq<Action>, ok: bool): seq<Wrapped> {
    if actions == [] then []
    else
      var front, a := actions[..|actions| - 1], actions[|actions| - 1];
      Inserted(s, front, ok)
      + if a.InsertReturns? && a.ok == ok && a.m in After(s, front).lapWriters && !Down(After(s, front)) then [a.m]
        else []
  }

  lemma InsertedLast(s: State, actions: seq<Action>, a: Action, ok: bool)
    ensures Inserted(s, actions + [a], ok)
         == Inserted(s, actions, ok)
            + if a.InsertReturns? && a.ok == ok && a.m in After(s, actions).lapWriters && !Down(After(s, actions))
              then [a.m] else []
  {
    hide After, Down;
    assert (actions + [a])[..|actions|] == actions;
  }

  /** The laps written are exactly those whose insert succeeded, in that order, and the
      laps lost those whose insert failed. */
  lemma {:induction false} InsertsExactly(batchSize: int, actions: seq<Action>)
    ensures After(Init(batchSize), actions).lapWritten == Inserted(Init(batchSize), actions, true)
    ensures forall m :: m in After(Init(batchSize), actions).lapLost <==> m in Inserted(Init(batchSize), actions, false)
  {
    hide After, Inserted, Init, Down, NextStep;
    if actions == [] {
      NothingInserted(batchSize);
    } else {
      var front, a := actions[..|actions| - 1], actions[|actions| - 1];
      assert actions == front + [a];
      InsertsExactly(batchSize, front);
      Always(batchSize, front);
      if a.InsertReturns? && a.m in After(Init(batchSize), front).lapWriters {
        WriterIsLap(After(Init(batchSize), front), a.m);
      }
      InsertStepExactly(After(Init(batchSize), front), a);
      AfterLast(Init(batchSize), front, a);
      InsertedLast(Init(batchSize), front, a, true);
      InsertedLast(Init(batchSize), front, a, false);
    }
  }

  lemma NothingInserted(batchSize: int)
    ensures After(Init(batchSize), []).lapWritten == [] && After(Init(batchSize), []).lapLost == {}
    ensures forall ok :: Inserted(Init(batchSize), [], ok) == []
  {
  }

  lemma InsertStepExactly(s: State, a: Action)
    requires AllLanes(s) && (a.InsertReturns? && a.m in s.lapWriters ==> IsLap(a.m))
    ensures var happens := a.InsertReturns? && a.m in s.lapWriters && !Down(s);
            && NextStep(s, a).lapWritten == s.lapWritten + (if happens && a.ok then [a.m] else [])
            && NextStep(s, a).lapLost == s.lapLost + (if happens && !a.ok then {a.m} else {})
  {
    hide Down, LaneSend, LaneReceive, LaneTick, LaneFinish, LapRowOf, IsLap, Insert;
    assert s.lapWritten + [] == s.lapWritten;
  }

  lemma WriterIsLap(s: State, m: Wrapped)
    requires Inv(s) && m in s.lapWriters
    ensures IsLap(m) && AllLanes(s)
  {
    hide LaneInv;
    assert m in s.lanes[SessionLap].received;
    ReceivedArrived(s.lanes[SessionLap], m);
    LaneKind(SessionLap, s.lanes[SessionLap], s.batchSize, m);
  }

  /** The messages that found room in the channel of their kind, in order. */
  function SentTo(s: State, actions: seq<Action>, k: Kind): seq<Wrapped> {
    if actions == [] then []
    else
      var front, a := actions[..|actions| - 1], actions[|actions| - 1];
      SentTo(s, front, k) + if SendHappens(After(s, front), a, k) then [a.m] else []
  }

  predicate SendHappens(s: State, a: Action, k: Kind) {
    a.Send? && a.m in s.waiting && KindOf(a.m.msg) == Some(k) && k in s.lanes && |s.lanes[k].channel| < 100 && !Down(s)
  }

  lemma SentToLast(s: State, actions: seq<Action>, a: Action, k: Kind)
    ensures SentTo(s, actions + [a], k)
         == SentTo(s, actions, k) + if SendHappens(After(s, actions), a, k) then [a.m] else []
  {
    hide After, SendHappens;
    assert (actions + [a])[..|actions|] == actions;
  }

  /** What has arrived in a lane, received or still queued, is exactly what was sent while
      fewer than 100 messages were queued, in the order of sending. */
  lemma {:induction false} ArrivalsExactly(batchSize: int, actions: seq<Action>, k: Kind)
    ensures k in After(Init(batchSize), actions).lanes
    ensures Arrived(After(Init(batchSize), actions).lanes[k]) == SentTo(Init(batchSize), actions, k)
  {
    hide After, SentTo, Init, SendHappens, NextStep, Arrived;
    LanesAlways(batchSize, actions);
    if actions == [] {
      NothingSent(batchSize, k);
    } else {
      var front, a := actions[..|actions| - 1], actions[|actions| - 1];
      assert actions == front + [a];
      ArrivalsExactly(batchSize, front, k);
      LanesAlways(batchSize, front);
      ArrivedStep(After(Init(batchSize), front), a, k);
      AfterLast(Init(batchSize), front, a);
      SentToLast(Init(batchSize), front, a, k);
    }
  }

  lemma NothingSent(batchSize: int, k: Kind)
    ensures k in After(Init(batchSize), []).lanes && Arrived(After(Init(batchSize), []).lanes[k]) == []
    ensures SentTo(Init(batchSize), [], k) == []
  {
    match k
    case Vehicle =>
    case Motion =>
    case LiveLap =>
    case SessionLap =>
    case ExtendedWheel =>
  }

  lemma ArrivedStep(s: State, a: Action, k: Kind)
    requires AllLanes(s)
    ensures k in NextStep(s, a).lanes
    ensures Arrived(NextStep(s, a).lanes[k]) == Arrived(s.lanes[k]) + if SendHappens(s, a, k) then [a.m] else []
  {
    hide Down, Select, Insert, Finish, LapRowOf, KindOf;
    var l := s.lanes[k];
    assert Arrived(l) + [] == Arrived(l);
    if SendHappens(s, a, k) {
      assert Arrived(LaneSend(l, a.m)) == Arrived(l) + [a.m];
    } else if a == Receive(k) && Enabled(s, a) {
      assert Arrived(LaneReceive(l)) == Arrived(l);
    }
  }

  predicate WriteHappens(s: State, a: Action, k: Kind) {
    a.WriteReturns? && a.k == k && k in s.lanes && s.lanes[k].worker.phase.Writing? && !Down(s)
  }

  lemma WriteStep(s: State, a: Action, k: Kind)
    requires AllLanes(s) && WriteHappens(s, a, k)
    ensures k in NextStep(s, a).lanes && NextStep(s, a).lanes[k].worker == Finish(s.lanes[k].worker, a.ok)
  {
    hide Down, Select, Insert;
  }

  lemma OtherStep(s: State, a: Action, k: Kind)
    requires AllLanes(s) && !WriteHappens(s, a, k)
    ensures k in NextStep(s, a).lanes && NextStep(s, a).lanes[k].worker.log == s.lanes[k].worker.log
  {
    hide Down, Select, Insert, Finish, Flush;
    if (a == Receive(k) || a == TickFires(k)) && Enabled(s, a) {
      LogUnchanged(s.lanes[k].worker, if a == TickFires(k) then Tick else Received(s.lanes[k].channel[0]));
    }
  }

  // ---- serving what is there -------------------------------------------------

  /** An action of persist itself whose write, if it is one, succeeds. */
  predicate Serving(a: Action) {
    match a
    case Add(_) => false
    case WriteReturns(_, ok) => ok
    case InsertReturns(_, ok) => ok
    case _ => true
  }

  predicate AllServing(actions: seq<Action>) {
    forall a | a in actions :: Serving(a)
  }

  /** A state in which nothing can bring the process down any more. */
  ghost predicate Live(s: State) {
    Inv(s) && forall m | m in s.accepted :: Complete(m.msg)
  }

  lemma LiveIsUp(s: State)
    requires Live(s)
    ensures AllLanes(s) && !Down(s)
    ensures forall k: Kind :: Sound(k, s.lanes[k])
  {
    HealthInState(s);
    hide Sound, LaneInv, LapInv, Complete, Down;
    forall k: Kind, m | m in s.lanes[k].received ensures Complete(m.msg) {
      ReceivedArrived(s.lanes[k], m);
      assert ArrivedOnce(s, s.lanes[k]);
    }
  }

  /** What serving keeps: nothing is accepted, lost or sent back. */
  ghost predicate Served(s: State, t: State) {
    && Live(t)
    && AllLanes(s)
    && t.accepted == s.accepted
    && t.lapLost == s.lapLost
    && t.waiting <= s.waiting
    && forall k: Kind :: Lost(t.lanes[k].worker.log) == Lost(s.lanes[k].worker.log)
  }

  lemma ServingStep(s: State, a: Action)
    requires Live(s) && Serving(a)
    ensures Served(s, NextStep(s, a))
  {
    hide Inv, Lost, Enabled, Step, Complete, Down, Serving;
    LiveIsUp(s);
    ServingFields(s, a);
    if Enabled(s, a) {
      StepKeeps(s, a);
    }
    hide NextStep;
    forall k: Kind
      ensures k in NextStep(s, a).lanes && Lost(NextStep(s, a).lanes[k].worker.log) == Lost(s.lanes[k].worker.log)
    {
      LostStep(s, a, k);
    }
  }

  lemma ServingFields(s: State, a: Action)
    requires AllLanes(s) && Serving(a)
    ensures NextStep(s, a).accepted == s.accepted && NextStep(s, a).lapLost == s.lapLost
    ensures NextStep(s, a).waiting <= s.waiting
  {
    hide Down, LaneSend, LaneReceive, LaneTick, LaneFinish, LapRowOf, Insert;
  }

  lemma LostStep(s: State, a: Action, k: Kind)
    requires AllLanes(s) && Serving(a)
    ensures k in NextStep(s, a).lanes && Lost(NextStep(s, a).lanes[k].worker.log) == Lost(s.lanes[k].worker.log)
  {
    hide Down, Select, Insert, Finish, Lost, NextStep;
    if WriteHappens(s, a, k) {
      WriteStep(s, a, k);
      FinishPhase(s.lanes[k].worker, true);
      LostOfOk(s.lanes[k].worker.log, s.lanes[k].worker.phase.batch);
    } else {
      OtherStep(s, a, k);
    }
  }

  lemma LostOfOk(log: seq<Batch>, rows: seq<Wrapped>)
    ensures Lost(log + [Batch(rows, true)]) == Lost(log)
  {
    var log' := log + [Batch(rows, true)];
    assert log'[..|log'| - 1] == log && log'[|log'| - 1] == Batch(rows, true);
    assert Lost(log) + [] == Lost(log);
  }

  /** The actions lead from one state to the other by serving only. */
  ghost predicate Leads(s: State, actions: seq<Action>, t: State) {
    AllServing(actions) && After(s, actions) == t && Served(s, t)
  }

  lemma LeadsNowhere(s: State)
    requires Live(s)
    ensures Leads(s, [], s)
  {
    LiveIsUp(s);
    hide Inv;
  }

  lemma LeadsOn(s: State, actions: seq<Action>, t: State, a: Action)
    requires Leads(s, actions, t) && Serving(a)
    ensures Leads(s, actions + [a], NextStep(t, a))
  {
    ServingStep(t, a);
    hide Served, Serving, NextStep, After;
    AfterLast(s, actions, a);
    ServedBoth(s, t, NextStep(t, a));
  }

  lemma LeadsFar(s: State, xs: seq<Action>, t: State, ys: seq<Action>, u: State)
    requires Leads(s, xs, t) && Leads(t, ys, u)
    ensures Leads(s, xs + ys, u)
  {
    hide Served, Serving, After;
    AfterBoth(s, xs, ys);
    ServedBoth(s, t, u);
  }

  lemma ServedBoth(s: State, t: State, u: State)
    requires Served(s, t) && Served(t, u)
    ensures Served(s, u)
  {
    hide Live, Lost;
  }

  lemma {:induction false} AfterBoth(s: State, xs: seq<Action>, ys: seq<Action>)
    ensures After(s, xs + ys) == After(After(s, xs), ys)
  {
    hide Enabled, Step;
    if ys == [] {
      assert xs + ys == xs;
    } else {
      var front, a := ys[..|ys| - 1], ys[|ys| - 1];
      AfterBoth(s, xs, front);
      AfterLast(s, xs + front, a);
      AfterLast(After(s, xs), front, a);
      assert xs + front + [a] == xs + ys && front + [a] == ys;
    }
  }

  // ---- one lane --------------------------------------------------------------

  lemma FinishEffect(s: State, k: Kind)
    requires AllLanes(s) && !Down(s) && s.lanes[k].worker.phase.Writing?
    ensures k in NextStep(s, WriteReturns(k, true)).lanes
    ensures NextStep(s, WriteReturns(k, true)).lanes[k] == LaneFinish(s.lanes[k], true)
  {
    hide Down, Finish;
  }

  lemma ReceiveEffect(s: State, k: Kind)
    requires AllLanes(s) && !Down(s) && s.lanes[k].worker.phase == Selecting && s.lanes[k].channel != []
    ensures k in NextStep(s, Receive(k)).lanes
    ensures NextStep(s, Receive(k)).lanes[k] == LaneReceive(s.lanes[k])
  {
    hide Down, Select;
  }

  lemma TickEffect(s: State, k: Kind)
    requires AllLanes(s) && !Down(s) && s.lanes[k].worker.phase == Selecting
    ensures k in NextStep(s, TickFires(k)).lanes
    ensures NextStep(s, TickFires(k)).lanes[k] == LaneTick(s.lanes[k])
  {
    hide Down, Select;
  }

  /** A worker of a live state selects or writes. */
  lemma LivePhase(s: State, k: Kind)
    requires Live(s)
    ensures AllLanes(s) && !Down(s)
    ensures s.lanes[k].worker.phase == Selecting || s.lanes[k].worker.phase.Writing?
    ensures !s.lanes[k].worker.lockHeld
  {
    LiveIsUp(s);
    hide Live, Inv, Down, Contents;
    assert Sound(k, s.lanes[k]);
  }

  lemma LeadsToLive(s: State, actions: seq<Action>, t: State)
    requires Leads(s, actions, t)
    ensures Live(t)
  {
  }

  /** Lets the write in flight, if there is one, return. */
  lemma Rest(s: State, k: Kind) returns (actions: seq<Action>, t: State)
    requires Live(s)
    ensures AllLanes(s) && Leads(s, actions, t) && AllLanes(t)
    ensures t.lanes[k].worker.phase == Selecting
    ensures t.lanes[k].channel == s.lanes[k].channel && t.lanes[k].worker.buffer == s.lanes[k].worker.buffer
  {
    hide Leads, Live, Down, NextStep, Finish;
    LivePhase(s, k);
    LeadsNowhere(s);
    actions, t := [], s;
    if s.lanes[k].worker.phase.Writing? {
      var a := WriteReturns(k, true);
      LeadsOn(s, [], s, a);
      FinishEffect(s, k);
      actions, t := [] + [a], NextStep(s, a);
      LastOfLane(s, k);
    }
    LeadsToLive(s, actions, t);
    LivePhase(t, k);
  }

  /** Before a cancellation no write is the last. */
  lemma LastOfLane(s: State, k: Kind)
    requires Live(s) && AllLanes(s) && s.lanes[k].worker.phase.Writing?
    ensures LaneFinish(s.lanes[k], true).worker.phase == Selecting
    ensures LaneFinish(s.lanes[k], true).worker.buffer == s.lanes[k].worker.buffer
  {
    LiveIsUp(s);
    hide Live, Inv, Down, Contents;
    assert Sound(k, s.lanes[k]);
    FinishPhase(s.lanes[k].worker, true);
  }

  /** Receives everything that is queued in the lane. */
  lemma {:induction false} Drain(s: State, k: Kind) returns (actions: seq<Action>, t: State)
    requires Live(s) && AllLanes(s)
    ensures Leads(s, actions, t) && AllLanes(t)
    ensures t.lanes[k].worker.phase == Selecting && t.lanes[k].channel == []
    decreases |s.lanes[k].channel|
  {
    hide Leads, Live, Down, NextStep, Select;
    actions, t := Rest(s, k);
    LeadsToLive(s, actions, t);
    if t.lanes[k].channel != [] {
      LivePhase(t, k);
      var u := NextStep(t, Receive(k));
      LeadsOn(s, actions, t, Receive(k));
      ReceiveEffect(t, k);
      LeadsToLive(s, actions + [Receive(k)], u);
      LivePhase(u, k);
      var more, v := Drain(u, k);
      LeadsFar(s, actions + [Receive(k)], u, more, v);
      actions, t := actions + [Receive(k)] + more, v;
    }
  }

  lemma SendEffect(s: State, m: Wrapped, k: Kind)
    requires AllLanes(s) && !Down(s) && KindOf(m.msg) == Some(k) && |s.lanes[k].channel| < 100
    ensures m !in NextStep(s, Send(m)).waiting
  {
    hide Down, LaneSend, KindOf;
  }

  /** Sends a waiting message, making room first. */
  lemma SendOne(s: State, m: Wrapped) returns (actions: seq<Action>, t: State)
    requires Live(s) && m in s.waiting
    ensures Leads(s, actions, t) && t.waiting < s.waiting
  {
    hide Leads, Live, Down, NextStep, KindOf;
    WaitingHasKind(s, m);
    var k := KindOf(m.msg).value;
    LivePhase(s, k);
    var drained, u := Drain(s, k);
    LeadsToLive(s, drained, u);
    LivePhase(u, k);
    LeadsOn(s, drained, u, Send(m));
    actions, t := drained + [Send(m)], NextStep(u, Send(m));
    SendEffect(u, m, k);
    LeadsShrinks(s, actions, t);
  }

  /** Sends everything that is waiting. */
  lemma {:induction false} SendAll(s: State) returns (actions: seq<Action>, t: State)
    requires Live(s)
    ensures Leads(s, actions, t) && t.waiting == {}
    decreases s.waiting
  {
    hide Leads, Live;
    LeadsNowhere(s);
    actions, t := [], s;
    if s.waiting != {} {
      var m :| m in s.waiting;
      actions, t := SendOne(s, m);
      LeadsToLive(s, actions, t);
      var more, u := SendAll(t);
      LeadsFar(s, actions, t, more, u);
      actions, t := actions + more, u;
    }
  }

  lemma WaitingHasKind(s: State, m: Wrapped)
    requires Live(s) && m in s.waiting
    ensures KindOf(m.msg).Some?
  {
  }

  lemma LeadsShrinks(s: State, actions: seq<Action>, t: State)
    requires Leads(s, actions, t)
    ensures t.waiting <= s.waiting
  {
  }

  // ---- the whole system ------------------------------------------------------

  /** Nothing is on its way in the lane, and nothing can get there any more. */
  predicate Idle(s: State, k: Kind) {
    && k in s.lanes
    && s.waiting == {}
    && s.lanes[k].channel == []
    && s.lanes[k].worker.phase == Selecting
    && !s.lanes[k].worker.lockHeld
    && s.lanes[k].worker.buffer == []
  }

  /** Brings one lane to rest, its buffer flushed. */
  lemma Quieten(s: State, k: Kind) returns (actions: seq<Action>, t: State)
    requires Live(s) && s.waiting == {}
    ensures Leads(s, actions, t) && Idle(t, k)
  {
    hide Leads, Live, Down, NextStep, Select;
    LivePhase(s, k);
    actions, t := Drain(s, k);
    LeadsToLive(s, actions, t);
    LivePhase(t, k);
    LeadsOn(s, actions, t, TickFires(k));
    TickEffect(t, k);
    TickEmpties(t.lanes[k].worker);
    actions, t := actions + [TickFires(k)], NextStep(t, TickFires(k));
    LeadsToLive(s, actions, t);
    var more, u := Rest(t, k);
    LeadsFar(s, actions, t, more, u);
    actions, t := actions + more, u;
    LeadsShrinks(s, actions, t);
    LeadsToLive(s, actions, t);
    LivePhase(t, k);
  }

  lemma TickEmpties(w: Worker)
    requires w.phase == Selecting && !w.lockHeld
    ensures Select(w, Tick).buffer == []
  {
  }

  /** A lane at rest stays so while only serving goes on. */
  lemma IdleStep(s: State, a: Action, k: Kind)
    requires AllLanes(s) && Idle(s, k) && Serving(a)
    ensures Idle(NextStep(s, a), k)
  {
    hide Down, Insert, LapRowOf, Finish, LaneSend, KindOf;
  }

  lemma ServingSplit(actions: seq<Action>, a: Action)
    requires AllServing(actions + [a])
    ensures AllServing(actions) && Serving(a)
  {
    hide Serving;
    var all := actions + [a];
    assert all[|actions|] == a && a in all;
    forall x | x in actions ensures Serving(x) {
      assert x in all;
    }
  }

  lemma LeadsSplit(s: State, actions: seq<Action>, t: State)
    requires Leads(s, actions, t)
    ensures AllServing(actions) && After(s, actions) == t
  {
  }

  lemma {:induction false} ServingRun(s: State, actions: seq<Action>)
    requires Live(s) && AllServing(actions)
    ensures Leads(s, actions, After(s, actions))
  {
    hide Leads, Live, NextStep, After, AllServing, Serving;
    if actions == [] {
      LeadsNowhere(s);
      StayPut(s);
    } else {
      var front, a := actions[..|actions| - 1], actions[|actions| - 1];
      assert actions == front + [a];
      ServingSplit(front, a);
      ServingRun(s, front);
      LeadsOn(s, front, After(s, front), a);
      AfterLast(s, front, a);
    }
  }

  lemma StayPut(s: State)
    ensures After(s, []) == s
  {
  }

  lemma {:induction false} IdleStays(s: State, actions: seq<Action>, t: State, k: Kind)
    requires Leads(s, actions, t) && Live(s) && Idle(s, k)
    ensures Idle(t, k)
    decreases |actions|
  {
    hide Leads, Live, Idle, NextStep, After, AllServing, Serving;
    LeadsSplit(s, actions, t);
    if actions == [] {
      StayPut(s);
    } else {
      var front, a := actions[..|actions| - 1], actions[|actions| - 1];
      assert actions == front + [a];
      ServingSplit(front, a);
      ServingRun(s, front);
      var u := After(s, front);
      IdleStays(s, front, u, k);
      LeadsToLive(s, front, u);
      LivePhase(u, k);
      IdleStep(u, a, k);
      AfterLast(s, front, a);
    }
  }

  /** Brings every lane to rest. */
  lemma QuietenAll(s: State) returns (actions: seq<Action>, t: State)
    requires Live(s)
    ensures Leads(s, actions, t) && forall k: Kind :: Idle(t, k)
  {
    hide Leads, Live, Idle;
    actions, t := SendAll(s);
    LeadsToLive(s, actions, t);
    actions, t := AndQuieten(s, actions, t, {}, Vehicle);
    actions, t := AndQuieten(s, actions, t, {Vehicle}, Motion);
    actions, t := AndQuieten(s, actions, t, {Vehicle, Motion}, LiveLap);
    actions, t := AndQuieten(s, actions, t, {Vehicle, Motion, LiveLap}, SessionLap);
    actions, t := AndQuieten(s, actions, t, {Vehicle, Motion, LiveLap, SessionLap}, ExtendedWheel);
    forall k: Kind ensures Idle(t, k) {
      match k
      case Vehicle =>
      case Motion =>
      case LiveLap =>
      case SessionLap =>
      case ExtendedWheel =>
    }
  }

  lemma AndQuieten(s: State, actions: seq<Action>, t: State, done: set<Kind>, k: Kind)
    returns (more: seq<Action>, u: State)
    requires Leads(s, actions, t) && t.waiting == {} && forall j | j in done :: Idle(t, j)
    ensures Leads(s, more, u) && u.waiting == {} && forall j | j in done + {k} :: Idle(u, j)
  {
    hide Leads, Live, Idle;
    LeadsToLive(s, actions, t);
    var next;
    next, u := Quieten(t, k);
    forall j | j in done ensures Idle(u, j) {
      IdleStays(t, next, u, j);
    }
    LeadsFar(s, actions, t, next, u);
    more := actions + next;
    LeadsShrinks(t, next, u);
  }

  /** Lets every lap writer return. */
  lemma {:induction false} InsertAllLaps(s: State) returns (actions: seq<Action>, t: State)
    requires Live(s) && forall k: Kind :: Idle(s, k)
    ensures Leads(s, actions, t) && t.lapWriters == {} && forall k: Kind :: Idle(t, k)
    decreases s.lapWriters
  {
    hide Leads, Live, Idle, NextStep;
    LeadsNowhere(s);
    actions, t := [], s;
    if s.lapWriters != {} {
      var m :| m in s.lapWriters;
      var a := InsertReturns(m, true);
      LeadsOn(s, [], s, a);
      actions, t := [] + [a], NextStep(s, a);
      LeadsToLive(s, actions, t);
      InsertEffect(s, m);
      forall k: Kind ensures Idle(t, k) {
        IdleStays(s, actions, t, k);
      }
      var more, u := InsertAllLaps(t);
      LeadsFar(s, actions, t, more, u);
      actions, t := actions + more, u;
    }
  }

  lemma InsertEffect(s: State, m: Wrapped)
    requires Live(s) && m in s.lapWriters
    ensures NextStep(s, InsertReturns(m, true)).lapWriters == s.lapWriters - {m}
  {
    LivePhase(s, SessionLap);
    WriterIsLap(s, m);
    hide Live;
    InsertTakes(s, m);
  }

  lemma InsertTakes(s: State, m: Wrapped)
    requires AllLanes(s) && !Down(s) && m in s.lapWriters && IsLap(m)
    ensures NextStep(s, InsertReturns(m, true)).lapWriters == s.lapWriters - {m}
  {
    hide Down, Insert, LapRowOf;
  }

  // ---- everything can be stored ----------------------------------------------

  /** Nothing is on its way anywhere. */
  ghost predicate AtRest(s: State) {
    s.lapWriters == {} && forall k: Kind :: Idle(s, k)
  }

  /** The message's row is in its table: in the lap table under its key, or written. */
  predicate IsStored(s: State, m: Wrapped)
    requires AllLanes(s)
  {
    if IsLap(m) then m in s.lapWritten && HasKey(s.laps, LapRowOf(m.msg).key)
    else KindOf(m.msg).Some? && m in Written(s.lanes[KindOf(m.msg).value].worker.log)
  }

  /** The message was lost in a failed write. */
  predicate IsLost(s: State, m: Wrapped)
    requires AllLanes(s)
  {
    if IsLap(m) then m in s.lapLost
    else KindOf(m.msg).Some? && m in Lost(s.lanes[KindOf(m.msg).value].worker.log)
  }

  lemma SettledStores(s: State, m: Wrapped)
    requires Live(s) && AtRest(s) && m in s.accepted
    ensures AllLanes(s) && (IsStored(s, m) || IsLost(s, m))
  {
    LiveIsUp(s);
    var k := KindOf(m.msg).value;
    assert Idle(s, k) && m in Arrived(s.lanes[k]) && m in s.lanes[k].received;
    LaneKindOf(s, k, m);
    if IsLap(m) {
      assert Idle(s, SessionLap);
      assert m in s.lapWritten || m in s.lapLost;
      if m in s.lapWritten {
        hide Inv, Live, Down, Sound, Idle;
        WrittenHasKey(s, m);
      }
    } else {
      hide Inv, Live, Down, Idle;
      assert Sound(k, s.lanes[k]);
      RowWrittenOrLost(s.lanes[k].worker, m);
    }
  }

  lemma LaneKindOf(s: State, k: Kind, m: Wrapped)
    requires Inv(s) && m in Arrived(s.lanes[k])
    ensures KindOf(m.msg) == Some(k) && (IsLap(m) <==> k == SessionLap)
  {
    hide Bounded, Sound, LapInv;
  }

  lemma WrittenHasKey(s: State, m: Wrapped)
    requires Live(s) && m in s.lapWritten && IsLap(m)
    ensures HasKey(s.laps, LapRowOf(m.msg).key)
  {
    assert s.laps == InsertAll([], LapRows(s.lapWritten));
    hide Inv;
    LapRowsAll(s.lapWritten, m);
    InsertedIsThere([], LapRows(s.lapWritten), LapRowOf(m.msg));
  }

  lemma RowWrittenOrLost(w: Worker, m: Wrapped)
    requires m in Contents(w) && w.phase == Selecting && w.buffer == []
    ensures m in Written(w.log) || m in Lost(w.log)
  {
    WrittenOrLost(w.log);
    assert Contents(w) == Attempted(w.log);
    assert m in multiset(Attempted(w.log));
    assert m in multiset(Written(w.log)) || m in multiset(Lost(w.log));
  }

  /** From every reachable state whose accepted messages have their submessages, persist
      can go on, without another Add and without a failing write, to a state in which
      nothing waits, every channel and buffer is empty, no write and no lap writer is
      left, and every message accepted is stored, unless it had been lost before. */
  lemma CanSettle(batchSize: int, actions: seq<Action>) returns (more: seq<Action>)
    requires forall m | m in After(Init(batchSize), actions).accepted :: Complete(m.msg)
    ensures AllServing(more)
    ensures var s, t := After(Init(batchSize), actions), After(Init(batchSize), actions + more);
            && AllLanes(s)
            && AllLanes(t)
            && t.accepted == s.accepted
            && AtRest(t)
            && forall m | m in s.accepted :: IsStored(t, m) || IsLost(s, m)
  {
    Always(batchSize, actions);
    hide After, Init, Inv;
    var s := After(Init(batchSize), actions);
    var t;
    more, t := CanSettleFrom(s);
    AfterBoth(Init(batchSize), actions, more);
  }

  lemma CanSettleFrom(s: State) returns (more: seq<Action>, t: State)
    requires Live(s)
    ensures Leads(s, more, t) && AllLanes(s) && AllLanes(t) && AtRest(t)
    ensures forall m | m in s.accepted :: IsStored(t, m) || IsLost(s, m)
  {
    var quieten, u := QuietenAll(s);
    LeadsToLive(s, quieten, u);
    var inserts;
    inserts, t := InsertAllLaps(u);
    LeadsFar(s, quieten, u, inserts, t);
    more := quieten + inserts;
    LeadsToLive(s, more, t);
    hide Inv, Live, Idle, After, AllServing;
    forall m | m in s.accepted ensures IsStored(t, m) || IsLost(s, m) {
      SettledStores(t, m);
      SameLost(s, t, m);
    }
  }

  lemma SameLost(s: State, t: State, m: Wrapped)
    requires Served(s, t) && AllLanes(t)
    ensures IsLost(t, m) <==> IsLost(s, m)
  {
    hide Live, Lost;
  }

  // ---- room in the channels --------------------------------------------------

  /** Each message added and sent before the next. */
  function Fill(msgs: seq<GameTelemetry>): seq<Action> {
    if msgs == [] then []
    else
      var front, m := msgs[..|msgs| - 1], msgs[|msgs| - 1];
      Fill(front) + [Add(m)] + [Send(Wrapped(|front|, m))]
  }

  function Numbers(msgs: seq<GameTelemetry>): seq<Wrapped> {
    if msgs == [] then []
    else Numbers(msgs[..|msgs| - 1]) + [Wrapped(|msgs| - 1, msgs[|msgs| - 1])]
  }

  /** A channel takes up to 100 messages of its kind, in order, without its worker. */
  lemma {:induction false} HundredFit(batchSize: int, k: Kind, msgs: seq<GameTelemetry>)
    requires |msgs| <= 100 && forall i | 0 <= i < |msgs| :: KindOf(msgs[i]) == Some(k)
    ensures var s := After(Init(batchSize), Fill(msgs));
            && k in s.lanes
            && s.lanes[k].channel == Numbers(msgs)
            && |Numbers(msgs)| == |msgs|
            && s.waiting == {}
            && |s.accepted| == |msgs|
            && !Down(s)
  {
    hide After, Init, Down, NextStep, KindOf;
    LanesAlways(batchSize, Fill(msgs));
    if msgs == [] {
      StartsEmpty(batchSize, k);
    } else {
      var front, m := msgs[..|msgs| - 1], msgs[|msgs| - 1];
      HundredFit(batchSize, k, front);
      LanesAlways(batchSize, Fill(front));
      AfterLast(Init(batchSize), Fill(front), Add(m));
      AfterLast(Init(batchSize), Fill(front) + [Add(m)], Send(Wrapped(|front|, m)));
      OneFits(After(Init(batchSize), Fill(front)), k, m);
    }
  }

  lemma StartsEmpty(batchSize: int, k: Kind)
    ensures var s := After(Init(batchSize), Fill([]));
            k in s.lanes && s.lanes[k].channel == [] && s.waiting == {} && s.accepted == [] && !Down(s)
  {
    match k
    case Vehicle =>
    case Motion =>
    case LiveLap =>
    case SessionLap =>
    case ExtendedWheel =>
  }

  lemma OneFits(s: State, k: Kind, msg: GameTelemetry)
    requires AllLanes(s) && !Down(s) && s.waiting == {} && |s.lanes[k].channel| < 100 && KindOf(msg) == Some(k)
    ensures var m := Wrapped(|s.accepted|, msg);
            var t := NextStep(NextStep(s, Add(msg)), Send(m));
            && k in t.lanes
            && t.lanes[k].channel == s.lanes[k].channel + [m]
            && t.waiting == {}
            && |t.accepted| == |s.accepted| + 1
            && !Down(t)
  {
  }
}

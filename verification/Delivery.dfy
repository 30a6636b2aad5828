/** What the composed system can always still deliver, from any state of any run. */
module Delivery {
  import opened Wrappers
  import opened CacheKeys
  import opened F123Packets
  import opened Telemetry
  import opened Ingest
  import opened IngestFacts
  import opened Emission
  import opened ColumnBytes
  import opened Worker
  import WorkerRuns
  import opened LapTable
  import opened Persist
  import opened EndToEnd
  import opened Progress
  import opened Provenance

  // ---- what was delivered ----------------------------------------------------

  /** The messages that the transport has handed to persist, in order. */
  function Delivered(w: World, es: seq<EndToEnd.Event>): seq<GameTelemetry> {
    if es == [] then []
    else
      var front, e := es[..|es| - 1], es[|es| - 1];
      Delivered(w, front) + if e.Deliver? && e.m in Happens(w, front).transit then [e.m] else []
  }

  /** In every run persist has accepted exactly the delivered messages, in order. */
  lemma {:induction false} DeliveredExactly(batchSize: int, es: seq<EndToEnd.Event>)
    ensures var accepted := Happens(Start(batchSize), es).persist.accepted;
            var delivered := Delivered(Start(batchSize), es);
            && |accepted| == |delivered|
            && forall i | 0 <= i < |delivered| :: accepted[i] == Wrapped(i, delivered[i])
  {
    hide Happens, Delivered, Start, EndToEnd.Next, WorldInv, Down;
    if es == [] {
      NothingDelivered(batchSize);
    } else {
      var front, e := es[..|es| - 1], es[|es| - 1];
      assert es == front + [e];
      DeliveredExactly(batchSize, front);
      AlwaysGenuine(batchSize, front, None);
      WorldIsUp(Happens(Start(batchSize), front), batchSize);
      DeliveredStep(Happens(Start(batchSize), front), batchSize, e);
      DeliveredLast(Start(batchSize), front, e);
    }
  }

  lemma NothingDelivered(batchSize: int)
    ensures Happens(Start(batchSize), []).persist.accepted == [] && Delivered(Start(batchSize), []) == []
  {
  }

  lemma DeliveredLast(w: World, es: seq<EndToEnd.Event>, e: EndToEnd.Event)
    ensures Happens(w, es + [e]) == EndToEnd.Next(Happens(w, es), e)
    ensures Delivered(w, es + [e])
         == Delivered(w, es) + if e.Deliver? && e.m in Happens(w, es).transit then [e.m] else []
  {
    hide EndToEnd.Next;
    assert (es + [e])[..|es|] == es;
  }

  lemma DeliveredStep(w: World, batchSize: int, e: EndToEnd.Event)
    requires WorldInv(w, batchSize, None) && AllLanes(w.persist) && !Down(w.persist)
    ensures EndToEnd.Next(w, e).persist.accepted
         == w.persist.accepted
            + if e.Deliver? && e.m in w.transit then [Wrapped(|w.persist.accepted|, e.m)] else []
  {
    hide FromBytes, Persist.After, Persist.Inv, Down, Enabled, Persist.Step;
    assert w.persist.accepted + [] == w.persist.accepted;
    match e
    case Deliver(m) =>
      if m in w.transit {
        assert Genuine(m, None);
        AcceptedStep(w.persist, Add(m));
      }
    case Inside(a) =>
      AcceptedStep(w.persist, a);
    case _ =>
  }

  /** What persist is asked to do: Add for each delivery, and its own steps. */
  function Asked(w: World, es: seq<EndToEnd.Event>): seq<Action> {
    if es == [] then []
    else
      var front, e := es[..|es| - 1], es[|es| - 1];
      Asked(w, front) + AskedBy(Happens(w, front), e)
  }

  /** The packets handed to ingest since it was last started. */
  function SinceRestart(es: seq<EndToEnd.Event>): seq<Datagram> {
    if es == [] then []
    else
      match es[|es| - 1]
      case Packet(p) => SinceRestart(es[..|es| - 1]) + [p]
      case Restart => []
      case _ => SinceRestart(es[..|es| - 1])
  }

  function AskedBy(w: World, e: EndToEnd.Event): seq<Action> {
    if e.Deliver? && e.m in w.transit then [Add(e.m)] else if e.Inside? && !e.a.Add? then [e.a] else []
  }

  /** In the composed system persist runs as it does on its own, on what it is asked. */
  lemma {:induction false} PersistRunsAlone(batchSize: int, es: seq<EndToEnd.Event>)
    ensures Happens(Start(batchSize), es).persist == Persist.After(Init(batchSize), Asked(Start(batchSize), es))
  {
    hide Happens, Start, Init, Asked, Persist.After, EndToEnd.Next, AskedBy, NextStep;
    if es == [] {
      NothingAsked(batchSize);
    } else {
      var front, e := es[..|es| - 1], es[|es| - 1];
      assert es == front + [e];
      PersistRunsAlone(batchSize, front);
      DeliveredLast(Start(batchSize), front, e);
      AskedLast(Start(batchSize), front, e);
      AskedStep(Happens(Start(batchSize), front), e);
      var asked := Asked(Start(batchSize), front);
      assert asked + [] == asked;
      if AskedBy(Happens(Start(batchSize), front), e) != [] {
        AfterLast(Init(batchSize), asked, AskedBy(Happens(Start(batchSize), front), e)[0]);
      }
    }
  }

  lemma NothingAsked(batchSize: int)
    ensures Happens(Start(batchSize), []).persist == Persist.After(Init(batchSize), Asked(Start(batchSize), []))
  {
    hide Init;
  }

  lemma AskedLast(w: World, es: seq<EndToEnd.Event>, e: EndToEnd.Event)
    ensures Asked(w, es + [e]) == Asked(w, es) + AskedBy(Happens(w, es), e)
  {
    hide Happens;
    assert (es + [e])[..|es|] == es;
  }

  lemma AskedStep(w: World, e: EndToEnd.Event)
    ensures var as' := AskedBy(w, e);
            && (as' == [] || as' == [as'[0]])
            && EndToEnd.Next(w, e).persist == if as' == [] then w.persist else NextStep(w.persist, as'[0])
  {
    hide FromBytes, Enabled, Persist.Step;
  }

  /** And ingest runs as it does on its own, on the packets since it was last started. */
  lemma {:induction false} IngestRunsAlone(batchSize: int, es: seq<EndToEnd.Event>)
    ensures RunsOn(Happens(Start(batchSize), es), SinceRestart(es))
  {
    hide Happens, Start, EndToEnd.Next, RunsOn;
    if es == [] {
      NothingRun(batchSize);
    } else {
      var front, e := es[..|es| - 1], es[|es| - 1];
      assert es == front + [e];
      IngestRunsAlone(batchSize, front);
      DeliveredLast(Start(batchSize), front, e);
      IngestStep(Happens(Start(batchSize), front), SinceRestart(front), e);
    }
  }

  predicate RunsOn(w: World, ps: seq<Datagram>) {
    w.cache == Emission.After(ps).cache && w.alive == Emission.After(ps).alive
  }

  lemma NothingRun(batchSize: int)
    ensures RunsOn(Happens(Start(batchSize), []), [])
  {
    hide Init;
  }

  lemma IngestStep(w: World, ps: seq<Datagram>, e: EndToEnd.Event)
    requires RunsOn(w, ps)
    ensures RunsOn(EndToEnd.Next(w, e), match e case Packet(p) => ps + [p] case Restart => [] case _ => ps)
  {
    hide FromBytes, Enabled, Persist.Step, Emission.After;
    match e
    case Packet(p) => PacketsOfLast(ps, p);
    case Restart => Emission.NothingYet();
    case _ =>
  }

  lemma PacketsOfLast(ps: seq<Datagram>, p: Datagram)
    ensures Emission.After(ps + [p]) == Handle(Emission.After(ps), p)
  {
    hide Handle;
    assert (ps + [p])[..|ps|] == ps;
  }

  /** What is in transit is exactly what a running ingest has sent and nobody lost since. */
  lemma {:induction false} TransitExactly(w: World, es: seq<EndToEnd.Event>, m: GameTelemetry)
    requires w.transit == {}
    ensures m in Happens(w, es).transit <==> exists i :: SentAt(w, es, i, m) && !LostAfter(es, i, m)
  {
    hide FromBytes, EndToEnd.Next, Happens, SentAt, LostAfter;
    if es == [] {
      NoEvents(w);
      forall i ensures !SentAt(w, es, i, m) {
        NeverSent(w, i, m);
      }
    } else {
      var n := |es| - 1;
      var front, e := es[..n], es[n];
      assert es == front + [e];
      TransitExactly(w, front, m);
      DeliveredLast(w, front, e);
      TransitStep(Happens(w, front), e, m);
      SentNow(w, es, m);
      forall i: nat | i < n
        ensures SentAt(w, es, i, m) <==> SentAt(w, front, i, m)
        ensures LostAfter(es, i, m) <==> LostAfter(front, i, m) || e == Lose(m)
      {
        SentEarlier(w, es, i, m);
      }
    }
  }

  lemma NeverSent(w: World, i: int, m: GameTelemetry)
    ensures !SentAt(w, [], i, m)
  {
  }

  /** The last event sends the message, or not; nothing can be lost after it. */
  lemma SentNow(w: World, es: seq<EndToEnd.Event>, m: GameTelemetry)
    requires es != []
    ensures var n := |es| - 1;
            var w' := Happens(w, es[..n]);
            && (SentAt(w, es, n, m)
                <==> es[n].Packet? && w'.alive && m in FromBytes(w'.cache, es[n].p.bytes, es[n].p.clock).sent)
            && !LostAfter(es, n, m)
            && (forall i | SentAt(w, es, i, m) :: 0 <= i <= n)
            && (forall i | SentAt(w, es[..n], i, m) :: 0 <= i < n)
  {
    hide FromBytes, Happens;
  }

  ghost predicate SentAt(w: World, es: seq<EndToEnd.Event>, i: int, m: GameTelemetry) {
    && 0 <= i < |es|
    && es[i].Packet?
    && Happens(w, es[..i]).alive
    && m in FromBytes(Happens(w, es[..i]).cache, es[i].p.bytes, es[i].p.clock).sent
  }

  ghost predicate LostAfter(es: seq<EndToEnd.Event>, i: int, m: GameTelemetry) {
    exists j :: i < j < |es| && j >= 0 && es[j] == Lose(m)
  }

  lemma TransitStep(w: World, e: EndToEnd.Event, m: GameTelemetry)
    ensures m in EndToEnd.Next(w, e).transit
       <==> || (e.Packet? && w.alive && m in FromBytes(w.cache, e.p.bytes, e.p.clock).sent)
            || (m in w.transit && e != Lose(m))
  {
    hide FromBytes, Enabled, Persist.Step;
  }

  /** What an event adds: it may send the message, or lose what was sent before. */
  lemma SentEarlier(w: World, es: seq<EndToEnd.Event>, i: nat, m: GameTelemetry)
    requires i < |es| - 1
    ensures SentAt(w, es, i, m) <==> SentAt(w, es[..|es| - 1], i, m)
    ensures LostAfter(es, i, m) <==> LostAfter(es[..|es| - 1], i, m) || es[|es| - 1] == Lose(m)
  {
    hide FromBytes, Happens;
    var n := |es| - 1;
    var front := es[..n];
    assert es[..i] == front[..i];
    if LostAfter(front, i, m) {
      var j :| i < j < n && j >= 0 && front[j] == Lose(m);
      assert es[j] == Lose(m);
    }
    if LostAfter(es, i, m) && es[n] != Lose(m) {
      var j :| i < j < |es| && j >= 0 && es[j] == Lose(m);
      assert front[j] == Lose(m);
    }
  }

  // ---- going on --------------------------------------------------------------

  lemma {:induction false} HappensBoth(w: World, xs: seq<EndToEnd.Event>, ys: seq<EndToEnd.Event>)
    ensures Happens(w, xs + ys) == Happens(Happens(w, xs), ys)
  {
    hide EndToEnd.Next, Happens;
    if ys == [] {
      assert xs + ys == xs;
      NoEvents(Happens(w, xs));
    } else {
      var front, e := ys[..|ys| - 1], ys[|ys| - 1];
      HappensBoth(w, xs, front);
      DeliveredLast(w, xs + front, e);
      DeliveredLast(Happens(w, xs), front, e);
      assert xs + front + [e] == xs + ys && front + [e] == ys;
    }
  }

  /** Steps of persist, as events of the whole system. */
  function Insides(actions: seq<Action>): seq<EndToEnd.Event> {
    if actions == [] then [] else Insides(actions[..|actions| - 1]) + [Inside(actions[|actions| - 1])]
  }

  lemma {:induction false} InsidesHappen(w: World, actions: seq<Action>)
    requires AllServing(actions)
    ensures Happens(w, Insides(actions)).persist == Persist.After(w.persist, actions)
    ensures forall e | e in Insides(actions) :: e.Inside?
  {
    hide Enabled, Persist.Step, NextStep;
    if actions != [] {
      var front, a := actions[..|actions| - 1], actions[|actions| - 1];
      assert actions == front + [a];
      ServingSplit(front, a);
      InsidesHappen(w, front);
      DeliveredLast(w, Insides(front), Inside(a));
    }
  }

  function Deliveries(msgs: seq<GameTelemetry>): seq<EndToEnd.Event> {
    if msgs == [] then [] else Deliveries(msgs[..|msgs| - 1]) + [Deliver(msgs[|msgs| - 1])]
  }

  /** Whatever is in transit can be delivered; it is then accepted and waiting. */
  lemma {:induction false} DeliverAll(w: World, batchSize: int, msgs: seq<GameTelemetry>)
    requires WorldInv(w, batchSize, None) && forall m | m in msgs :: m in w.transit
    ensures var w' := Happens(w, Deliveries(msgs));
            && WorldInv(w', batchSize, None)
            && w'.transit == w.transit
            && forall m | m in msgs :: exists x :: x in w'.persist.waiting && x.msg == m
    ensures forall e | e in Deliveries(msgs) :: e.Deliver?
  {
    hide WorldInv, EndToEnd.Next, Happens;
    if msgs == [] {
      NoEvents(w);
    } else {
      var front, m := msgs[..|msgs| - 1], msgs[|msgs| - 1];
      assert msgs == front + [m] && m in msgs;
      assert forall x | x in front :: x in msgs;
      DeliverAll(w, batchSize, front);
      DeliveredLast(w, Deliveries(front), Deliver(m));
      DeliverOne(Happens(w, Deliveries(front)), batchSize, m);
    }
  }

  lemma NoEvents(w: World)
    ensures Happens(w, []) == w
  {
  }

  lemma DeliverOne(w: World, batchSize: int, m: GameTelemetry)
    requires WorldInv(w, batchSize, None) && m in w.transit
    ensures var w' := EndToEnd.Next(w, Deliver(m));
            && WorldInv(w', batchSize, None)
            && w'.transit == w.transit
            && w.persist.waiting <= w'.persist.waiting
            && Wrapped(|w.persist.accepted|, m) in w'.persist.waiting
  {
    hide Persist.Inv, Live, Down, Persist.After, Enabled, Persist.Step;
    assert Genuine(m, None);
    WorldIsUp(w, batchSize);
    PersistedKeeps(w, Add(m), batchSize, None);
    AddWaits(w.persist, m);
  }

  lemma AddWaits(s: State, msg: GameTelemetry)
    requires AllLanes(s) && !Down(s) && !msg.data.NoData?
    ensures NextStep(s, Add(msg)).waiting == s.waiting + {Wrapped(|s.accepted|, msg)}
  {
    hide Down;
  }

  lemma WorldIsUp(w: World, batchSize: int)
    requires WorldInv(w, batchSize, None)
    ensures AllLanes(w.persist) && !Down(w.persist)
  {
    hide WorldInv, Live, Sound, Down;
    WorldIsLive(w, batchSize);
    LiveIsUp(w.persist);
  }

  lemma WorldIsLive(w: World, batchSize: int)
    requires WorldInv(w, batchSize, None)
    ensures Live(w.persist)
  {
    hide Persist.Inv, Persist.After, Complete;
    forall m | m in w.persist.accepted ensures Complete(m.msg) {
      assert Genuine(m.msg, None);
    }
  }

  // ---- any packet can be stored ----------------------------------------------

  /** No packet but p, and nothing that loses: no Lose, no failing write. */
  predicate OnlyPacket(e: EndToEnd.Event, p: Datagram) {
    match e
    case Packet(q) => q.bytes == p.bytes
    case Restart => true
    case Lose(_) => false
    case Deliver(_) => true
    case Inside(a) => Serving(a)
  }

  ghost predicate StoredAs(s: State, msg: GameTelemetry)
    requires AllLanes(s)
  {
    exists m :: m in s.accepted && m.msg == msg && IsStored(s, m)
  }

  /** From any state of any run, ingest can be restarted and handed any packet, and the
      system can then go on so that everything a fresh ingest sends for that packet is
      stored: in particular every completed lap of a history. */
  lemma CanDeliver(batchSize: int, es: seq<EndToEnd.Event>, p: Datagram) returns (more: seq<EndToEnd.Event>)
    ensures forall e | e in more :: OnlyPacket(e, p)
    ensures AllLanes(Happens(Start(batchSize), es + more).persist)
    ensures forall msg | msg in FromBytes(map[], p.bytes, p.clock).sent ::
              StoredAs(Happens(Start(batchSize), es + more).persist, msg)
  {
    hide Happens, Start, WorldInv, FromBytes, StoredAs;
    AlwaysGenuine(batchSize, es, None);
    var w := Happens(Start(batchSize), es);
    more := DeliverFrom(w, batchSize, p);
    HappensBoth(Start(batchSize), es, more);
  }

  lemma DeliverFrom(w: World, batchSize: int, p: Datagram) returns (more: seq<EndToEnd.Event>)
    requires WorldInv(w, batchSize, None)
    ensures forall e | e in more :: OnlyPacket(e, p)
    ensures AllLanes(Happens(w, more).persist)
    ensures forall msg | msg in FromBytes(map[], p.bytes, p.clock).sent :: StoredAs(Happens(w, more).persist, msg)
  {
    hide Happens, WorldInv, FromBytes, EndToEnd.Next, StoredAs, OnlyPacket;
    var sent := FromBytes(map[], p.bytes, p.clock).sent;
    var restarted := [Restart] + [Packet(p)];
    FreshPacket(w, batchSize, p);
    var u := Happens(w, restarted);
    DeliverAll(u, batchSize, sent);
    var v := Happens(u, Deliveries(sent));
    var actions := ServeFrom(v, batchSize, sent);
    more := restarted + Deliveries(sent) + Insides(actions);
    HappensBoth(w, restarted, Deliveries(sent));
    HappensBoth(w, restarted + Deliveries(sent), Insides(actions));
    OnlyThese(p, Deliveries(sent), Insides(actions), actions);
  }

  lemma FreshPacket(w: World, batchSize: int, p: Datagram)
    requires WorldInv(w, batchSize, None)
    ensures var u := Happens(w, [Restart] + [Packet(p)]);
            && WorldInv(u, batchSize, None)
            && forall m | m in FromBytes(map[], p.bytes, p.clock).sent :: m in u.transit
  {
    hide FromBytes, Persist.Inv, Persist.After, Genuine, Happens;
    NoEvents(w);
    DeliveredLast(w, [], Restart);
    DeliveredLast(w, [Restart], Packet(p));
    assert [] + [Restart] == [Restart];
    SentIsGenuine(map[], p, None);
  }

  /** Serves until everything that waits is stored. */
  lemma ServeFrom(w: World, batchSize: int, msgs: seq<GameTelemetry>) returns (actions: seq<Action>)
    requires WorldInv(w, batchSize, None)
    requires forall m | m in msgs :: exists x :: x in w.persist.waiting && x.msg == m
    ensures AllServing(actions)
    ensures AllLanes(Happens(w, Insides(actions)).persist)
    ensures forall m | m in msgs :: StoredAs(Happens(w, Insides(actions)).persist, m)
    ensures forall e | e in Insides(actions) :: e.Inside?
  {
    WorldIsLive(w, batchSize);
    hide WorldInv, Live, Happens, IsStored, IsLost, AllServing, AtRest;
    var s, t := w.persist, w.persist;
    actions, t := CanSettleFrom(s);
    LeadsSplit(s, actions, t);
    LeadsKeeps(s, actions, t);
    InsidesHappen(w, actions);
    forall m | m in msgs ensures StoredAs(t, m) {
      var x :| x in s.waiting && x.msg == m;
      WaitingIsSafe(s, x);
    }
  }

  lemma LeadsKeeps(s: State, actions: seq<Action>, t: State)
    requires Leads(s, actions, t)
    ensures t.accepted == s.accepted
  {
  }

  /** What is waiting is accepted and has not been lost. */
  lemma WaitingIsSafe(s: State, m: Wrapped)
    requires Live(s) && m in s.waiting
    ensures AllLanes(s) && m in s.accepted && !IsLost(s, m)
  {
    LiveIsUp(s);
    hide Lost, Down;
    var k := KindOf(m.msg).value;
    assert ArrivedOnce(s, s.lanes[k]) && ArrivedOnce(s, s.lanes[SessionLap]);
    ReceivedArrived(s.lanes[SessionLap], m);
    ReceivedArrived(s.lanes[k], m);
    if !IsLap(m) && m in Lost(s.lanes[k].worker.log) {
      hide Inv, Live, LapInv;
      assert Sound(k, s.lanes[k]);
      LostWasTaken(s.lanes[k].worker, m);
    }
  }

  lemma LostWasTaken(w: Worker, m: Wrapped)
    requires m in Lost(w.log)
    ensures m in Contents(w)
  {
    WorkerRuns.WrittenOrLost(w.log);
    assert m in multiset(Lost(w.log));
    assert m in multiset(Attempted(w.log));
  }

  lemma OnlyThese(p: Datagram, deliveries: seq<EndToEnd.Event>, insides: seq<EndToEnd.Event>, actions: seq<Action>)
    requires forall e | e in deliveries :: e.Deliver?
    requires insides == Insides(actions) && AllServing(actions)
    ensures forall e | e in [Restart] + [Packet(p)] + deliveries + insides :: OnlyPacket(e, p)
  {
    InsidesServe(actions);
  }

  lemma {:induction false} InsidesServe(actions: seq<Action>)
    requires AllServing(actions)
    ensures forall e | e in Insides(actions) :: e.Inside? && Serving(e.a)
  {
    hide Serving;
    if actions != [] {
      var front, a := actions[..|actions| - 1], actions[|actions| - 1];
      assert actions == front + [a];
      ServingSplit(front, a);
      InsidesServe(front);
    }
  }

  /** So the lap table can be repaired from any state: after a restart and one history of m
      completed laps, laps 0 to m-1 can all be there, each once and as driven. */
  lemma CanRepair(batchSize: int, es: seq<EndToEnd.Event>, truth: History, p: Datagram)
    returns (more: seq<EndToEnd.Event>)
    requires Stable(es, truth) && Reports(p.bytes, truth)
    requires IsPlayerHistory(p.bytes) && 0 < CompletedLaps(p.bytes) <= 100
    ensures forall e | e in more :: OnlyPacket(e, p)
    ensures var laps, h := Happens(Start(batchSize), es + more).persist.laps, HeaderAt(p.bytes, 0);
            && UniqueKeys(laps)
            && forall i: nat | i < CompletedLaps(p.bytes) :: TrueRow(truth, h.sessionUID, h.playerCarIndex, i) in laps
  {
    hide Happens, Start, StoredAs, FromBytes, HeaderAt, Decimal, Reports, LapMessages;
    var m := CompletedLaps(p.bytes);
    more := CanDeliver(batchSize, es, p);
    StillStable(es, more, truth, p);
    FreshBurst(p);
    var s := Happens(Start(batchSize), es + more).persist;
    forall i | 0 <= i < m ensures WasInserted(s, LapMessages(p.bytes, m, p.clock)[i]) {
      assert LapMessages(p.bytes, m, p.clock)[i] in FromBytes(map[], p.bytes, p.clock).sent;
      LapStored(s, LapMessages(p.bytes, m, p.clock)[i]);
    }
    BurstStored(batchSize, es + more, truth, p, m);
  }

  lemma StillStable(es: seq<EndToEnd.Event>, more: seq<EndToEnd.Event>, truth: History, p: Datagram)
    requires Stable(es, truth) && Reports(p.bytes, truth) && forall e | e in more :: OnlyPacket(e, p)
    ensures Stable(es + more, truth)
  {
    hide Reports;
    forall i | 0 <= i < |es + more| && (es + more)[i].Packet? ensures Reports((es + more)[i].p.bytes, truth) {
      if i >= |es| {
        assert (es + more)[i] == more[i - |es|] && more[i - |es|] in more;
        assert OnlyPacket(more[i - |es|], p);
      }
    }
  }

  lemma FreshBurst(p: Datagram)
    requires IsPlayerHistory(p.bytes) && 0 < CompletedLaps(p.bytes) <= 100
    ensures FromBytes(map[], p.bytes, p.clock).sent == LapMessages(p.bytes, CompletedLaps(p.bytes), p.clock)
    ensures forall m | m in FromBytes(map[], p.bytes, p.clock).sent :: m.data.LapTimesDataOf?
  {
    hide LapMessages, Decimal, ToHistoricLap;
    SentFromBytes(map[], p.bytes, p.clock);
  }

  lemma LapStored(s: State, msg: GameTelemetry)
    requires AllLanes(s) && StoredAs(s, msg) && msg.data.LapTimesDataOf?
    ensures WasInserted(s, msg)
  {
  }

  /** And any telemetry packet can still get its row into its table. */
  lemma CanStore(batchSize: int, es: seq<EndToEnd.Event>, p: Datagram) returns (more: seq<EndToEnd.Event>)
    requires StoredByCopy(p.bytes)
    ensures forall e | e in more :: OnlyPacket(e, p)
    ensures var s, k := Happens(Start(batchSize), es + more).persist, PacketKind(HeaderAt(p.bytes, 0).packetId);
            && k in s.lanes
            && exists m :: m in Written(s.lanes[k].worker.log) && RowOfPacket(m, k, p)
  {
    hide Happens, Start, StoredAs, FromBytes, HeaderAt, RowOfPacket, HandlePacket, Sourced, Decimal;
    more := CanDeliver(batchSize, es, p);
    HandleIsFromBytes(map[], p.bytes, p.clock);
    RowFromBytes(map[], p.bytes, p.clock);
    var s, k := Happens(Start(batchSize), es + more).persist, PacketKind(HeaderAt(p.bytes, 0).packetId);
    var msg := FromBytes(map[], p.bytes, p.clock).sent[0];
    assert msg in FromBytes(map[], p.bytes, p.clock).sent;
    var m := RowStored(s, msg, k);
    CausedRow(m, k, map[], p);
  }

  lemma RowStored(s: State, msg: GameTelemetry, k: Kind) returns (m: Wrapped)
    requires AllLanes(s) && StoredAs(s, msg) && KindOf(msg) == Some(k) && k != SessionLap
    ensures k in s.lanes && m in Written(s.lanes[k].worker.log) && m.msg == msg
  {
    m :| m in s.accepted && m.msg == msg && IsStored(s, m);
  }
}

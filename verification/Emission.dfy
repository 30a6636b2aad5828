/** Runs of the ingest lap filter: which history packets cause a burst, what the bursts
    are, what the cache then holds, and how many messages there can be. */
module Emission {
  import opened CacheKeys
  import opened PackedCodec
  import opened F123Packets
  import opened Telemetry
  import opened Ingest

  /** A received datagram and the times stamped on its messages. */
  datatype Datagram = Datagram(bytes: seq<byte>, clock: Clock)

  /** The transformer after some packets: `outputs` holds what each handled packet sent;
      a panic ends the process, so no later packet is handled. */
  datatype IngestRun = IngestRun(cache: Cache, outputs: seq<seq<GameTelemetry>>, alive: bool)

  /** One packet, by its bytes; `HandleIsFromBytes` makes that what the code does. */
  function Handle(r: IngestRun, p: Datagram): IngestRun {
    if !r.alive then r
    else
      var out := FromBytes(r.cache, p.bytes, p.clock);
      IngestRun(out.cache, r.outputs + [out.sent], out.status != Panicked)
  }

  /** A freshly started transformer, after the packets ps. */
  function After(ps: seq<Datagram>): IngestRun {
    if ps == [] then IngestRun(map[], [], true) else Handle(After(ps[..|ps| - 1]), ps[|ps| - 1])
  }

  /** The packet is the history of this car, sent as this car's player. */
  predicate About(packet: seq<byte>, session: nat, car: nat) {
    && IsPlayerHistory(packet)
    && HeaderAt(packet, 0).sessionUID == session
    && HeaderAt(packet, 0).playerCarIndex == car
  }

  /** How many completed laps of the car the packet announces. */
  function Announced(packet: seq<byte>, session: nat, car: nat): nat {
    if About(packet, session, car) && CompletedLaps(packet) > 0 then CompletedLaps(packet) else 0
  }

  /** Every lap the packet announces for the car, from 0 up, if its array holds that many. */
  function LapsSent(p: Datagram, session: nat, car: nat): (sent: seq<GameTelemetry>)
    ensures Announced(p.bytes, session, car) <= MAX_LAPS ==> |sent| == Announced(p.bytes, session, car)
  {
    var m := Announced(p.bytes, session, car);
    if 0 < m <= MAX_LAPS then LapMessages(p.bytes, m, p.clock) else []
  }

  /** The output is a burst of completed laps of this car. */
  predicate IsBurst(output: seq<GameTelemetry>, session: nat, car: nat) {
    && output != []
    && output[0].data.LapTimesDataOf?
    && output[0].sessionId == Decimal(session)
    && output[0].userId == Decimal(car)
  }

  function Bursts(outputs: seq<seq<GameTelemetry>>, session: nat, car: nat): seq<seq<GameTelemetry>> {
    if outputs == [] then []
    else
      var n := |outputs| - 1;
      Bursts(outputs[..n], session, car) + if IsBurst(outputs[n], session, car) then [outputs[n]] else []
  }

  // ---- one packet ------------------------------------------------------------

  /** Seen from one car, a packet matters only if it announces more laps of that car
      than were ever sent; it then raises the cache to that number, and if the array holds that
      many it is a burst of exactly those laps. */
  lemma PacketForCar(cache: Cache, p: Datagram, session: nat, car: nat)
    ensures var out := FromBytes(cache, p.bytes, p.clock);
            var latest, m := Latest(cache, CarKey(session, car)), Announced(p.bytes, session, car);
            && (latest >= 0 ==> Latest(out.cache, CarKey(session, car)) == if m > latest then m else latest)
            && (latest >= 0 ==> (IsBurst(out.sent, session, car) <==> latest < m <= MAX_LAPS))
            && (latest >= 0 && IsBurst(out.sent, session, car) ==> out.sent == LapsSent(p, session, car))
            && (latest < m && m > MAX_LAPS && latest >= 0 ==> out.status == Panicked)
  {
    if IsPlayerHistory(p.bytes) {
      var h := HeaderAt(p.bytes, 0);
      CarKeyInjective(session, car, h.sessionUID, h.playerCarIndex);
      SameCar(session, car, h.sessionUID, h.playerCarIndex);
    }
  }

  lemma SameCar(s: nat, c: nat, s': nat, c': nat)
    ensures Decimal(s) == Decimal(s') && Decimal(c) == Decimal(c') <==> s == s' && c == c'
  {
    if Decimal(s) == Decimal(s') && Decimal(c) == Decimal(c') {
      DecimalInjective(s, s');
      DecimalInjective(c, c');
    }
  }

  // ---- whole runs ------------------------------------------------------------

  /** The most laps of the car announced by any of the packets. */
  function Best(ps: seq<Datagram>, session: nat, car: nat): nat {
    if ps == [] then 0
    else
      var best, m := Best(ps[..|ps| - 1], session, car), Announced(ps[|ps| - 1].bytes, session, car);
      if m > best then m else best
  }

  lemma {:induction false} BestIsMaximum(ps: seq<Datagram>, session: nat, car: nat)
    ensures forall i | 0 <= i < |ps| :: Announced(ps[i].bytes, session, car) <= Best(ps, session, car)
    ensures Best(ps, session, car) > 0 ==>
              exists i | 0 <= i < |ps| :: Announced(ps[i].bytes, session, car) == Best(ps, session, car)
  {
    if ps != [] {
      var front := ps[..|ps| - 1];
      BestIsMaximum(front, session, car);
      if Best(ps, session, car) > Best(front, session, car) {
        assert Announced(ps[|ps| - 1].bytes, session, car) == Best(ps, session, car);
      } else if Best(ps, session, car) > 0 {
        var i :| 0 <= i < |front| && Announced(front[i].bytes, session, car) == Best(front, session, car);
        assert Announced(ps[i].bytes, session, car) == Best(ps, session, car);
      }
    }
  }

  /** Packets are handled in order until one panics; the handled ones decide the rest. */
  lemma {:induction false} HandledPrefix(ps: seq<Datagram>)
    ensures var n := |After(ps).outputs|;
            && n <= |ps|
            && After(ps) == After(ps[..n])
            && (After(ps).alive ==> n == |ps|)
  {
    hide FromBytes, CarKey, Announced, IsBurst, LapsSent;
    if ps == [] {
      assert ps[..0] == ps;
    } else {
      var front := ps[..|ps| - 1];
      HandledPrefix(front);
      if After(front).alive {
        assert ps[..|ps|] == ps;
      } else {
        assert ps[..|After(ps).outputs|] == front[..|After(ps).outputs|];
      }
    }
  }

  /** What the i-th handled packet sent, and the state in which it was handled. */
  lemma {:induction false} OutputAt(ps: seq<Datagram>, i: nat)
    requires i < |After(ps).outputs|
    ensures |After(ps).outputs| <= |ps|
    ensures After(ps[..i]).alive && |After(ps[..i]).outputs| == i
    ensures After(ps).outputs[i] == FromBytes(After(ps[..i]).cache, ps[i].bytes, ps[i].clock).sent
  {
    hide FromBytes, CarKey, Announced, IsBurst, LapsSent;
    HandledPrefix(ps);
    var front := ps[..|ps| - 1];
    if i < |After(front).outputs| {
      OutputAt(front, i);
      assert front[..i] == ps[..i];
    } else {
      HandledPrefix(front);
    }
  }

  /** The cache entry of a car is the running maximum of what was announced. */
  lemma {:induction false} CacheIsRunningMaximum(ps: seq<Datagram>, session: nat, car: nat)
    ensures |After(ps).outputs| <= |ps|
    ensures Latest(After(ps).cache, CarKey(session, car)) == Best(ps[..|After(ps).outputs|], session, car)
  {
    hide FromBytes, CarKey, Announced, IsBurst, LapsSent;
    HandledPrefix(ps);
    if ps != [] {
      var front := ps[..|ps| - 1];
      HandledPrefix(front);
      CacheIsRunningMaximum(front, session, car);
      var n := |After(front).outputs|;
      if After(front).alive {
        assert front[..n] == front && ps[..n + 1] == ps;
        PacketForCar(After(front).cache, ps[n], session, car);
      } else {
        assert ps[..n] == front[..n];
      }
    }
  }

  /** The i-th packet announces laps, and more of them than every packet before it. */
  predicate IsRecord(ps: seq<Datagram>, i: nat, session: nat, car: nat)
    requires i < |ps|
  {
    && Announced(ps[i].bytes, session, car) > 0
    && forall j | 0 <= j < i :: Announced(ps[j].bytes, session, car) < Announced(ps[i].bytes, session, car)
  }

  /** A handled packet causes a burst exactly when it sets a record that its array can
      hold, and the burst is then every completed lap of that packet, from 0 up. A record
      that the array cannot hold is the last packet handled. */
  lemma EmissionExactly(ps: seq<Datagram>, i: nat, session: nat, car: nat)
    requires i < |After(ps).outputs|
    ensures |After(ps).outputs| <= |ps|
    ensures IsBurst(After(ps).outputs[i], session, car)
       <==> IsRecord(ps, i, session, car) && Announced(ps[i].bytes, session, car) <= MAX_LAPS
    ensures IsBurst(After(ps).outputs[i], session, car) ==>
              After(ps).outputs[i] == LapsSent(ps[i], session, car)
    ensures IsRecord(ps, i, session, car) && Announced(ps[i].bytes, session, car) > MAX_LAPS ==>
              !After(ps).alive && |After(ps).outputs| == i + 1
  {
    hide FromBytes, CarKey, Announced, IsBurst, LapsSent;
    OutputAt(ps, i);
    var front, m := ps[..i], Announced(ps[i].bytes, session, car);
    var before := After(front);
    CacheIsRunningMaximum(front, session, car);
    assert front[..|before.outputs|] == front;
    PacketForCar(before.cache, ps[i], session, car);
    BestIsMaximum(front, session, car);
    RecordIsAboveBest(ps, i, session, car);
    if m > Best(front, session, car) && m > MAX_LAPS {
      assert ps[..i + 1][..i] == front;
      assert !After(ps[..i + 1]).alive;
      DeadStaysDead(ps, i + 1);
    }
  }

  lemma RecordIsAboveBest(ps: seq<Datagram>, i: nat, session: nat, car: nat)
    requires i < |ps|
    ensures IsRecord(ps, i, session, car) <==> Announced(ps[i].bytes, session, car) > Best(ps[..i], session, car)
  {
    var front, m := ps[..i], Announced(ps[i].bytes, session, car);
    BestIsMaximum(front, session, car);
    if m > Best(front, session, car) {
      forall j | 0 <= j < i ensures Announced(ps[j].bytes, session, car) < m {
        assert ps[j] == front[j];
      }
    } else if m > 0 {
      var j :| 0 <= j < i && Announced(front[j].bytes, session, car) == Best(front, session, car);
      assert ps[j] == front[j];
    }
  }

  lemma {:induction false} DeadStaysDead(ps: seq<Datagram>, k: nat)
    requires k <= |ps| && !After(ps[..k]).alive
    ensures After(ps) == After(ps[..k])
  {
    hide FromBytes, CarKey, Announced, IsBurst, LapsSent;
    if k == |ps| {
      assert ps[..k] == ps;
    } else {
      assert ps[..|ps| - 1][..k] == ps[..k];
      DeadStaysDead(ps[..|ps| - 1], k);
    }
  }

  /** The left-to-right strict records of what is announced for the car, as far as the
      array of laps can hold them. */
  function Records(ps: seq<Datagram>, session: nat, car: nat): seq<nat> {
    if ps == [] then []
    else
      var n := |ps| - 1;
      var m := Announced(ps[n].bytes, session, car);
      Records(ps[..n], session, car) + if IsRecord(ps, n, session, car) && m <= MAX_LAPS then [m] else []
  }

  function Sizes(bursts: seq<seq<GameTelemetry>>): seq<nat> {
    if bursts == [] then [] else Sizes(bursts[..|bursts| - 1]) + [|bursts[|bursts| - 1]|]
  }

  /** The last step of a run, seen from one car. */
  lemma LastBurst(ps: seq<Datagram>, session: nat, car: nat)
    requires ps != [] && After(ps[..|ps| - 1]).alive
    ensures var front, p := ps[..|ps| - 1], ps[|ps| - 1];
            var before, m := After(front), Announced(p.bytes, session, car);
            && |After(ps).outputs| == |ps|
            && Latest(before.cache, CarKey(session, car)) == Best(front, session, car)
            && (m > Best(front, session, car) && m > MAX_LAPS ==> !After(ps).alive)
            && Bursts(After(ps).outputs, session, car)
            == Bursts(before.outputs, session, car)
               + if Best(front, session, car) < m <= MAX_LAPS then [LapsSent(p, session, car)] else []
  {
    hide FromBytes, CarKey, Announced, IsBurst, LapsSent;
    var front, p := ps[..|ps| - 1], ps[|ps| - 1];
    var before := After(front);
    HandledPrefix(front);
    CacheIsRunningMaximum(front, session, car);
    assert front[..|front|] == front;
    PacketForCar(before.cache, p, session, car);
    BurstsOfLast(before.outputs, FromBytes(before.cache, p.bytes, p.clock).sent, session, car);
  }

  lemma BurstsOfLast(outputs: seq<seq<GameTelemetry>>, output: seq<GameTelemetry>, session: nat, car: nat)
    ensures Bursts(outputs + [output], session, car)
         == Bursts(outputs, session, car) + if IsBurst(output, session, car) then [output] else []
  {
    assert (outputs + [output])[..|outputs|] == outputs;
  }

  /** In any run, whether or not it ended in a panic, the burst sizes are the strict
      records among the handled packets. */
  lemma {:induction false} BurstSizesAreRecords(ps: seq<Datagram>, session: nat, car: nat)
    ensures |After(ps).outputs| <= |ps|
    ensures Sizes(Bursts(After(ps).outputs, session, car)) == Records(ps[..|After(ps).outputs|], session, car)
  {
    hide FromBytes, CarKey, Announced, IsBurst, LapsSent, Records, Sizes;
    HandledPrefix(ps);
    if ps == [] {
      NoRecords(session, car);
    } else {
      var front, p := ps[..|ps| - 1], ps[|ps| - 1];
      HandledPrefix(front);
      BurstSizesAreRecords(front, session, car);
      if After(front).alive {
        assert front[..|front|] == front && ps[..|ps|] == ps;
        LastBurst(ps, session, car);
        SizesOfLast(Bursts(After(front).outputs, session, car), LapsSent(p, session, car));
        RecordsOfLast(ps, session, car);
      } else {
        assert front[..|After(front).outputs|] == ps[..|After(front).outputs|];
      }
    }
  }

  lemma NoRecords(session: nat, car: nat)
    ensures Sizes([]) == [] && Records([], session, car) == []
  {
  }

  lemma RecordsOfLast(ps: seq<Datagram>, session: nat, car: nat)
    requires ps != []
    ensures var front, p := ps[..|ps| - 1], ps[|ps| - 1];
            var m := Announced(p.bytes, session, car);
            && Records(ps, session, car)
            == Records(front, session, car)
               + (if Best(front, session, car) < m <= MAX_LAPS then [|LapsSent(p, session, car)|] else [])
            && Records(front, session, car) + [] == Records(front, session, car)
  {
    hide Announced, LapsSent;
    RecordIsAboveBest(ps, |ps| - 1, session, car);
  }

  lemma SizesOfLast(bursts: seq<seq<GameTelemetry>>, burst: seq<GameTelemetry>)
    ensures Sizes(bursts + [burst]) == Sizes(bursts) + [|burst|]
    ensures bursts + [] == bursts
  {
    assert (bursts + [burst])[..|bursts|] == bursts;
  }

  // ---- key independence ------------------------------------------------------

  /** The car's own history packets, in order. */
  function Only(ps: seq<Datagram>, session: nat, car: nat): seq<Datagram> {
    if ps == [] then []
    else
      Only(ps[..|ps| - 1], session, car)
      + if About(ps[|ps| - 1].bytes, session, car) then [ps[|ps| - 1]] else []
  }

  /** What one car's bursts are does not depend on any other packet: in any run, dropping
      everything but the car's own histories from the handled packets leaves its bursts
      and its cache entry as they were, and brings no panic that was not there. */
  lemma KeyIndependence(ps: seq<Datagram>, session: nat, car: nat)
    ensures |After(ps).outputs| <= |ps|
    ensures var only := Only(ps[..|After(ps).outputs|], session, car);
            && Bursts(After(only).outputs, session, car) == Bursts(After(ps).outputs, session, car)
            && Latest(After(only).cache, CarKey(session, car)) == Latest(After(ps).cache, CarKey(session, car))
            && (After(ps).alive ==> After(only).alive)
  {
    hide After, CarKey, Bursts, Only;
    HandledPrefix(ps);
    OnlyHandled(ps[..|After(ps).outputs|], session, car);
  }

  lemma OnlyHandled(ps: seq<Datagram>, session: nat, car: nat)
    requires |After(ps).outputs| == |ps|
    ensures var only := Only(ps, session, car);
            && Bursts(After(only).outputs, session, car) == Bursts(After(ps).outputs, session, car)
            && Latest(After(only).cache, CarKey(session, car)) == Latest(After(ps).cache, CarKey(session, car))
            && (After(ps).alive ==> After(only).alive)
  {
    hide After, CarKey, Bursts, Only;
    if After(ps).alive {
      OnlyIsEnough(ps, session, car);
      AliveCache(ps, session, car);
      AliveCache(Only(ps, session, car), session, car);
    } else {
      NothingYet();
      OutputAt(ps, |ps| - 1);
      LastOnly(ps[..|ps| - 1], ps[|ps| - 1], session, car);
      assert ps[..|ps| - 1] + [ps[|ps| - 1]] == ps;
    }
  }

  lemma NothingYet()
    ensures After([]) == IngestRun(map[], [], true)
  {
  }

  /** The last packet of a run may panic and still changes the car's bursts and entry the
      same way with and without the other packets before it. */
  lemma LastOnly(ps: seq<Datagram>, p: Datagram, session: nat, car: nat)
    requires After(ps).alive
    ensures var only := Only(ps + [p], session, car);
            && Bursts(After(only).outputs, session, car) == Bursts(After(ps + [p]).outputs, session, car)
            && Latest(After(only).cache, CarKey(session, car)) == Latest(After(ps + [p]).cache, CarKey(session, car))
  {
    hide FromBytes, CarKey, IsBurst, LapsSent, Only;
    OnlyIsEnough(ps, session, car);
    OnlyLast(ps, p, session, car);
    LastEntry(ps, p, session, car);
    var qs := Only(ps, session, car);
    if About(p.bytes, session, car) {
      LastEntry(qs, p, session, car);
    } else {
      AliveCache(qs, session, car);
    }
  }

  /** One more packet, seen from one car: its bursts and its cache entry. */
  lemma LastEntry(ps: seq<Datagram>, p: Datagram, session: nat, car: nat)
    requires After(ps).alive
    ensures var best, m := Best(ps, session, car), Announced(p.bytes, session, car);
            && Bursts(After(ps + [p]).outputs, session, car)
            == Bursts(After(ps).outputs, session, car)
               + (if best < m <= MAX_LAPS then [LapsSent(p, session, car)] else [])
            && Latest(After(ps + [p]).cache, CarKey(session, car)) == if m > best then m else best
  {
    hide FromBytes, CarKey, Announced, IsBurst, LapsSent;
    assert (ps + [p])[..|ps|] == ps && (ps + [p])[..|ps + [p]|] == ps + [p];
    LastBurst(ps + [p], session, car);
    CacheIsRunningMaximum(ps + [p], session, car);
  }

  lemma AliveCache(ps: seq<Datagram>, session: nat, car: nat)
    requires After(ps).alive
    ensures Latest(After(ps).cache, CarKey(session, car)) == Best(ps, session, car)
  {
    hide FromBytes, CarKey, Announced, IsBurst, LapsSent;
    HandledPrefix(ps);
    CacheIsRunningMaximum(ps, session, car);
    assert ps[..|ps|] == ps;
  }

  /** Two runs look the same from one car. */
  predicate AlikeFor(ps: seq<Datagram>, qs: seq<Datagram>, session: nat, car: nat) {
    && After(ps).alive
    && After(qs).alive
    && Best(ps, session, car) == Best(qs, session, car)
    && Bursts(After(ps).outputs, session, car) == Bursts(After(qs).outputs, session, car)
  }

  lemma {:induction false} OnlyIsEnough(ps: seq<Datagram>, session: nat, car: nat)
    requires After(ps).alive
    ensures AlikeFor(ps, Only(ps, session, car), session, car)
  {
    hide FromBytes, CarKey, Announced, IsBurst, LapsSent;
    if ps != [] {
      var front, p := ps[..|ps| - 1], ps[|ps| - 1];
      AliveBefore(ps);
      OnlyIsEnough(front, session, car);
      OnlyLast(front, p, session, car);
      assert front + [p] == ps;
      AlikeOnly(front, Only(front, session, car), p, session, car);
    }
  }

  lemma AliveBefore(ps: seq<Datagram>)
    requires After(ps).alive && ps != []
    ensures After(ps[..|ps| - 1]).alive
  {
    hide FromBytes, CarKey, Announced, IsBurst, LapsSent;
  }

  lemma OnlyLast(ps: seq<Datagram>, p: Datagram, session: nat, car: nat)
    ensures Only(ps + [p], session, car)
         == if About(p.bytes, session, car) then Only(ps, session, car) + [p] else Only(ps, session, car)
  {
    assert (ps + [p])[..|ps|] == ps;
  }

  lemma AlikeOnly(ps: seq<Datagram>, qs: seq<Datagram>, p: Datagram, session: nat, car: nat)
    requires AlikeFor(ps, qs, session, car) && After(ps + [p]).alive
    ensures AlikeFor(ps + [p], if About(p.bytes, session, car) then qs + [p] else qs, session, car)
  {
    hide FromBytes, CarKey, Announced, IsBurst, LapsSent;
    if About(p.bytes, session, car) {
      AliveForCar(ps, qs, p, session, car);
      AlikeStep(ps, qs, p, session, car);
    } else {
      AlikeSkip(ps, qs, p, session, car);
    }
  }

  lemma AlikeSkip(ps: seq<Datagram>, qs: seq<Datagram>, p: Datagram, session: nat, car: nat)
    requires AlikeFor(ps, qs, session, car) && !About(p.bytes, session, car)
    requires After(ps + [p]).alive
    ensures AlikeFor(ps + [p], qs, session, car)
  {
    hide FromBytes, CarKey, IsBurst, LapsSent;
    assert (ps + [p])[..|ps|] == ps;
    LastBurst(ps + [p], session, car);
  }

  lemma AlikeStep(ps: seq<Datagram>, qs: seq<Datagram>, p: Datagram, session: nat, car: nat)
    requires AlikeFor(ps, qs, session, car)
    requires After(ps + [p]).alive && After(qs + [p]).alive
    ensures AlikeFor(ps + [p], qs + [p], session, car)
  {
    hide FromBytes, CarKey, Announced, IsBurst, LapsSent;
    assert (ps + [p])[..|ps|] == ps && (qs + [p])[..|qs|] == qs;
    LastBurst(ps + [p], session, car);
    LastBurst(qs + [p], session, car);
  }

  /** Whether a history of the car panics depends on the car's own cache entry only. */
  lemma AliveForCar(ps: seq<Datagram>, qs: seq<Datagram>, p: Datagram, session: nat, car: nat)
    requires AlikeFor(ps, qs, session, car) && About(p.bytes, session, car)
    ensures After(ps + [p]).alive == After(qs + [p]).alive
  {
    hide FromBytes, CarKey, Announced, IsBurst, LapsSent;
    AliveCache(ps, session, car);
    AliveCache(qs, session, car);
    assert (ps + [p])[..|ps|] == ps && (qs + [p])[..|qs|] == qs;
    StatusForCar(After(ps).cache, After(qs).cache, p, session, car);
  }

  lemma StatusForCar(cache: Cache, cache': Cache, p: Datagram, session: nat, car: nat)
    requires About(p.bytes, session, car)
    requires Latest(cache, CarKey(session, car)) == Latest(cache', CarKey(session, car))
    ensures FromBytes(cache, p.bytes, p.clock).status == FromBytes(cache', p.bytes, p.clock).status
  {
  }

  // ---- how much is ever sent -------------------------------------------------

  function Total(bursts: seq<seq<GameTelemetry>>): nat {
    if bursts == [] then 0 else Total(bursts[..|bursts| - 1]) + |bursts[|bursts| - 1]|
  }

  /** 1 + 2 + ... + n. */
  function Triangular(n: nat): nat {
    if n == 0 then 0 else n + Triangular(n - 1)
  }

  lemma {:induction false} TriangularIsHalfProduct(n: nat)
    ensures 2 * Triangular(n) == n * (n + 1)
  {
    if n > 0 {
      TriangularIsHalfProduct(n - 1);
    }
  }

  lemma {:induction false} TriangularGrows(m: nat, n: nat)
    requires m < n
    ensures Triangular(m) + n <= Triangular(n)
  {
    if m < n - 1 {
      TriangularGrows(m, n - 1);
    }
  }

  /** However many packets arrive, a car causes at most L bursts and 1 + ... + L
      messages, where L is its final cache entry. */
  lemma EmissionBound(ps: seq<Datagram>, session: nat, car: nat)
    ensures var bursts, latest := Bursts(After(ps).outputs, session, car), Latest(After(ps).cache, CarKey(session, car));
            |bursts| <= latest && Total(bursts) <= Triangular(latest)
  {
    hide FromBytes, CarKey, Announced, IsBurst, LapsSent, Triangular;
    CacheIsRunningMaximum(ps, session, car);
    BurstsWithin(ps, session, car);
    var latest := Latest(After(ps).cache, CarKey(session, car));
    if latest > MAX_LAPS {
      TriangularGrows(MAX_LAPS, latest);
    }
  }

  /** The most laps that can have been sent at once. */
  function Capped(m: nat): nat {
    if m < MAX_LAPS then m else MAX_LAPS
  }

  /** The number and the total size of the bursts stay within a cap. */
  predicate Within(bursts: seq<seq<GameTelemetry>>, cap: nat) {
    |bursts| <= cap && Total(bursts) <= Triangular(cap)
  }

  lemma {:induction false} BurstsWithin(ps: seq<Datagram>, session: nat, car: nat)
    ensures |After(ps).outputs| <= |ps|
    ensures Within(Bursts(After(ps).outputs, session, car), Capped(Best(ps[..|After(ps).outputs|], session, car)))
  {
    hide FromBytes, CarKey, Announced, IsBurst, LapsSent, After, Best, Within;
    HandledPrefix(ps);
    if ps == [] {
      NothingYet();
      NoBursts(session, car);
    } else {
      var front := ps[..|ps| - 1];
      HandledPrefix(front);
      BurstsWithin(front, session, car);
      if After(front).alive {
        assert front[..|front|] == front && ps[..|ps|] == ps;
        WithinOfLast(ps, session, car);
      } else {
        DeadStaysDead(ps, |front|);
        assert front[..|After(front).outputs|] == ps[..|After(front).outputs|];
      }
    }
  }

  lemma NoBursts(session: nat, car: nat)
    ensures forall cap: nat :: Within(Bursts([], session, car), cap)
  {
  }

  lemma WithinOfLast(ps: seq<Datagram>, session: nat, car: nat)
    requires ps != [] && After(ps[..|ps| - 1]).alive
    requires Within(Bursts(After(ps[..|ps| - 1]).outputs, session, car), Capped(Best(ps[..|ps| - 1], session, car)))
    ensures |After(ps).outputs| == |ps|
    ensures Within(Bursts(After(ps).outputs, session, car), Capped(Best(ps, session, car)))
  {
    hide FromBytes, CarKey, Announced, IsBurst, LapsSent, After, Bursts, Total, Triangular;
    var front := ps[..|ps| - 1];
    LastBurst(ps, session, car);
    BurstsGrow(Bursts(After(front).outputs, session, car), Bursts(After(ps).outputs, session, car),
               Capped(Best(front, session, car)), Capped(Best(ps, session, car)));
  }

  lemma BurstsGrow(bursts: seq<seq<GameTelemetry>>, bursts': seq<seq<GameTelemetry>>, best: nat, best': nat)
    requires |bursts| <= best && Total(bursts) <= Triangular(best)
    requires best <= best'
    requires || bursts' == bursts
             || (best < best' && |bursts'| == |bursts| + 1 && bursts' == bursts + [bursts'[|bursts|]]
                 && |bursts'[|bursts|]| == best')
    ensures |bursts'| <= best' && Total(bursts') <= Triangular(best')
  {
    if best < best' {
      TriangularGrows(best, best');
    }
    if |bursts'| > |bursts| {
      assert bursts'[..|bursts|] == bursts;
    }
  }

  /** So in any run no car ever causes more than 100 bursts or 5050 messages, and unless
      the run ended in a panic its cache entry is at most 100. */
  lemma EmissionBoundAbsolute(ps: seq<Datagram>, session: nat, car: nat)
    ensures |Bursts(After(ps).outputs, session, car)| <= 100
    ensures Total(Bursts(After(ps).outputs, session, car)) <= 5050
    ensures After(ps).alive ==> Latest(After(ps).cache, CarKey(session, car)) <= MAX_LAPS
  {
    hide FromBytes, CarKey, After, Best, Bursts, Total, Triangular;
    BurstsWithin(ps, session, car);
    var cap := Capped(Best(ps[..|After(ps).outputs|], session, car));
    TriangularIsHalfProduct(100);
    if cap < 100 {
      TriangularGrows(cap, 100);
    }
    if After(ps).alive {
      AliveCache(ps, session, car);
      AliveWithinArray(ps, session, car);
    }
  }

  lemma {:induction false} AliveWithinArray(ps: seq<Datagram>, session: nat, car: nat)
    requires After(ps).alive
    ensures Best(ps, session, car) <= MAX_LAPS
  {
    hide FromBytes, CarKey, Announced, IsBurst, LapsSent;
    if ps != [] {
      AliveWithinArray(ps[..|ps| - 1], session, car);
      LastBurst(ps, session, car);
    }
  }
}

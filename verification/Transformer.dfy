/** The ingest side as it runs: the cache, the packet buffer and the transformer, as
    objects that change step by step, each proved against what the packet's bytes call for. */
module Transformer {
  import opened Wrappers
  import opened CacheKeys
  import opened PackedCodec
  import opened F123Packets
  import opened Telemetry
  import opened Ingest
  import opened IngestFacts
  import opened Emission

  // ---- the cache -------------------------------------------------------------

  class LatestLapData {
    var data: Cache

    constructor ()
      ensures data == map[]
    {
      data := map[];
    }

    /** The entry becomes the larger of the two; every other entry stays. */
    method Set(sessionId: string, userId: string, lapNum: int) returns (latest: int)
      modifies this
      ensures data == Raise(old(data), JoinKey(sessionId, userId), lapNum)
      ensures latest == Latest(data, JoinKey(sessionId, userId))
      ensures latest >= lapNum && latest >= Latest(old(data), JoinKey(sessionId, userId))
      ensures latest == lapNum || latest == Latest(old(data), JoinKey(sessionId, userId))
      ensures forall k | k != JoinKey(sessionId, userId) :: Latest(data, k) == Latest(old(data), k)
    {
      var key := JoinKey(sessionId, userId);
      var latestLapNum := Latest(data, key);
      if lapNum > latestLapNum {
        data := data[key := lapNum];
      }
      return Latest(data, key);
    }

    method Get(sessionId: string, userId: string) returns (latest: int)
      ensures latest == Latest(data, JoinKey(sessionId, userId))
    {
      return Latest(data, JoinKey(sessionId, userId));
    }
  }

  // ---- the packet buffer -----------------------------------------------------

  /** What `UnpackBody` can end in. */
  datatype Unpacked = Body(v: Value) | HeaderNotRead | Short

  /** A packet being read: `off` bytes are consumed, the header is kept once read. */
  class F123PacketBuffer {
    const data: seq<byte>
    var off: nat
    var header: Option<PacketHeader>

    predicate Valid()
      reads this
    {
      off <= |data|
    }

    constructor (packet: seq<byte>)
      ensures Valid() && data == packet && off == 0 && header == None
    {
      data, off, header := packet, 0, None;
    }

    /** `binary.Read` walks the unread bytes: the value of exactly the next Size(l) of them,
        or an error that has used up whatever was left. */
    method Read(l: Layout) returns (v: Option<Value>)
      requires Valid()
      modifies this`off
      ensures Valid()
      ensures old(off) + Size(l) <= |data| ==> off == old(off) + Size(l) && v == Some(Decode(l, data, old(off)))
      ensures old(off) + Size(l) > |data| ==> off == |data| && v == None
    {
      WalkExactly(l, data, off);
      match Walk(l, data, off)
      case Done(value, end) =>
        v := Some(value);
        off := end;
      case RanOut =>
        v := None;
        off := |data|;
    }

    /** The first successful call is remembered, and later calls consume nothing. */
    method UnpackHeader() returns (h: Option<PacketHeader>)
      requires Valid()
      modifies this
      ensures Valid()
      ensures h == header
      ensures old(header).Some? ==> header == old(header) && off == old(off)
      ensures old(header).None? && old(off) + HEADER_BYTES <= |data| ==>
                header == Some(HeaderAt(data, old(off))) && off == old(off) + HEADER_BYTES
      ensures old(header).None? && old(off) + HEADER_BYTES > |data| ==> header == None && off == |data|
    {
      if header.Some? {
        return header;
      }
      var at := off;
      var v := Read(PACKET_HEADER);
      PacketHeaderOffsets();
      if v.Some? {
        HeaderAgrees(data, at);
        header := Some(HeaderOf(v.value));
      }
      return header;
    }

    /** The body's value, once the header is read; a short body consumes the rest. */
    method UnpackBody(l: Layout) returns (body: Unpacked)
      requires Valid()
      modifies this`off
      ensures Valid()
      ensures header.None? ==> body == HeaderNotRead && off == old(off)
      ensures header.Some? && old(off) + Size(l) <= |data| ==>
                body == Body(Decode(l, data, old(off))) && off == old(off) + Size(l)
      ensures header.Some? && old(off) + Size(l) > |data| ==> body == Short && off == |data|
    {
      if header.None? {
        return HeaderNotRead;
      }
      var v := Read(l);
      return if v.Some? then Body(v.value) else Short;
    }
  }

  // ---- the transformer -------------------------------------------------------

  /** Everything that left on any channel, one packet's messages after another's. */
  function Flat(outputs: seq<seq<GameTelemetry>>): seq<GameTelemetry> {
    if outputs == [] then [] else Flat(outputs[..|outputs| - 1]) + outputs[|outputs| - 1]
  }

  class F123PacketTransformer {
    var vehicleData: seq<GameTelemetry>
    var motionData: seq<GameTelemetry>
    var currentLapData: seq<GameTelemetry>
    var lapTimesData: seq<GameTelemetry>
    var extendedWheelData: seq<GameTelemetry>
    const latestLaps: LatestLapData
    const capture: bool

    constructor (capture: bool)
      ensures fresh(latestLaps) && latestLaps.data == map[] && this.capture == capture
      ensures forall k: Kind :: Sent(k) == []
    {
      latestLaps := new LatestLapData();
      vehicleData, motionData, currentLapData, lapTimesData, extendedWheelData := [], [], [], [], [];
      this.capture := capture;
    }

    /** What was sent on the channel of a kind. */
    function Sent(k: Kind): seq<GameTelemetry>
      reads this
    {
      match k
      case Vehicle => vehicleData
      case Motion => motionData
      case LiveLap => currentLapData
      case SessionLap => lapTimesData
      case ExtendedWheel => extendedWheelData
    }

    /** Since the old state, exactly these messages were sent, each on its kind's channel. */
    twostate predicate HasSent(ms: seq<GameTelemetry>)
      reads this
    {
      forall k: Kind :: Sent(k) == old(Sent(k)) + OfKind(k, ms)
    }

    /** Fills a slice of the completed laps in a loop. None is the panic of an index past
        the 100 laps of the fixed array; the cache has been raised by then. */
    method NormalizeSessionHistoryData(h: PacketHeader, body: SessionHistoryData)
      returns (laps: Option<seq<HistoricLapData>>)
      modifies latestLaps
      ensures NormalizeHistory(old(latestLaps.data), h, body)
           == if laps.Some? then Laps(latestLaps.data, laps.value) else IndexPanic(latestLaps.data)
    {
      hide Decimal, ToHistoricLap;
      var maxLapIndex := body.numLaps - 1;
      if maxLapIndex <= 0 {
        return Some([]);
      }
      var filled := new HistoricLapData[maxLapIndex];
      var sessionId, userId := Decimal(h.sessionUID), Decimal(h.playerCarIndex);
      var latest := latestLaps.Get(sessionId, userId);
      if latest >= maxLapIndex {
        return Some([]);
      }
      var _ := latestLaps.Set(sessionId, userId, maxLapIndex);
      for i := 0 to maxLapIndex
        invariant i <= |body.lapHistoryData|
        invariant latestLaps.data == Raise(old(latestLaps.data), CarKey(h.sessionUID, h.playerCarIndex), maxLapIndex)
        invariant forall k | 0 <= k < i :: filled[k] == ToHistoricLap(k, body.lapHistoryData[k])
      {
        if i >= |body.lapHistoryData| {
          return None;
        }
        filled[i] := ToHistoricLap(i, body.lapHistoryData[i]);
      }
      assert filled[..] == Burst(maxLapIndex, body.lapHistoryData);
      return Some(filled[..]);
    }

    /** The player's element of a 22-car body: indexing past the array panics. */
    method UnpackPlayerCar(h: PacketHeader, data: F123PacketBuffer, element: Layout) returns (car: CarBody)
      requires data.Valid() && data.header == Some(h)
      modifies data
      ensures car == PlayerCar(h, data.data, old(data.off), element)
    {
      var body := data.UnpackBody(Repeat(CARS, element));
      if body == Short {
        return BodyTooShort;
      }
      if h.playerCarIndex >= CARS {
        return NoSuchCar;
      }
      return Car(body.v.items[h.playerCarIndex]);
    }

    /** One message for each lap, in order. */
    method SendLaps(h: PacketHeader, laps: seq<HistoricLapData>, clock: Clock)
      modifies `lapTimesData
      ensures HasSent(Envelopes(h, clock, laps))
    {
      hide Envelope, Envelopes, OfKind;
      ghost var sent := Envelopes(h, clock, laps);
      NothingSent();
      for i := 0 to |laps|
        invariant HasSent(sent[..i])
      {
        var m := Envelope(h, clock(i), LapTimesDataOf(laps[i]));
        lapTimesData := lapTimesData + [m];
        assert sent[..i + 1] == sent[..i] + [m];
        LapOfKind(h, clock(i), laps[i], sent[..i]);
      }
      assert sent[..|laps|] == sent;
    }

    /** A lap message adds to the lap channel only. */
    lemma LapOfKind(h: PacketHeader, now: int, lap: HistoricLapData, ms: seq<GameTelemetry>)
      ensures var m := Envelope(h, now, LapTimesDataOf(lap));
              forall k :: OfKind(k, ms + [m]) == if k == SessionLap then OfKind(k, ms) + [m] else OfKind(k, ms)
    {
      hide Decimal, OfKind;
      var m := Envelope(h, now, LapTimesDataOf(lap));
      OfKindOne(m);
      forall k ensures OfKind(k, ms + [m]) == if k == SessionLap then OfKind(k, ms) + [m] else OfKind(k, ms) {
        OfKindAppend(k, ms, [m]);
        assert OfKind(k, ms) + [] == OfKind(k, ms);
      }
    }

    /** Sends the completed laps of the player's own history. */
    method RouteSessionHistory(h: PacketHeader, body: SessionHistoryData, clock: Clock) returns (status: Status)
      modifies this, latestLaps
      ensures RouteHistory(old(latestLaps.data), h, body, clock).cache == latestLaps.data
      ensures RouteHistory(old(latestLaps.data), h, body, clock).status == status
      ensures HasSent(RouteHistory(old(latestLaps.data), h, body, clock).sent)
    {
      hide NormalizeHistory, Envelopes;
      if body.currentCarIdx != h.playerCarIndex {
        return Routed;
      }
      var laps := NormalizeSessionHistoryData(h, body);
      if laps.None? {
        return Panicked;
      }
      SendLaps(h, laps.value, clock);
      return Routed;
    }

    /** Sends the player's normalized element on the channel for the packet's type. */
    method SendElement(h: PacketHeader, v: Value, clock: Clock)
      requires IsCarArray(h.packetId)
      modifies `vehicleData, `motionData, `currentLapData
      ensures HasSent([Envelope(h, clock(0), NormalizeElement(h.packetId, v))])
    {
      hide NormalizeVehicle, NormalizeMotion, NormalizeCurrentLap, CarTelemetryOf, CarMotionOf, LapDataOf, Decimal, OfKind;
      OfKindOne(Envelope(h, clock(0), NormalizeElement(h.packetId, v)));
      if h.packetId == CAR_TELEMETRY_PACKET {
        vehicleData := vehicleData + [Envelope(h, clock(0), VehicleDataOf(NormalizeVehicle(CarTelemetryOf(v))))];
      } else if h.packetId == CAR_MOTION_PACKET {
        motionData := motionData + [Envelope(h, clock(0), MotionDataOf(NormalizeMotion(CarMotionOf(v))))];
      } else {
        currentLapData := currentLapData + [Envelope(h, clock(0), CurrentLapDataOf(NormalizeCurrentLap(LapDataOf(v))))];
      }
    }

    method SendWheels(h: PacketHeader, wheels: ExtendedFourWheelData, clock: Clock)
      modifies `extendedWheelData
      ensures HasSent([Envelope(h, clock(0), WheelDataOf(wheels))])
    {
      hide Decimal, OfKind;
      OfKindOne(Envelope(h, clock(0), WheelDataOf(wheels)));
      extendedWheelData := extendedWheelData + [Envelope(h, clock(0), WheelDataOf(wheels))];
    }

    /** Decodes the body that the header announces and sends what becomes of it. A nil
        header is dereferenced. */
    method Route(header: Option<PacketHeader>, data: F123PacketBuffer, clock: Clock) returns (status: Status)
      requires data.Valid() && data.header == header
      modifies this, latestLaps, data
      ensures header.None? ==> status == Panicked && latestLaps.data == old(latestLaps.data) && HasSent([])
      ensures header.Some? ==>
                var out := Ingest.Route(old(latestLaps.data), header.value, data.data, old(data.off), clock);
                latestLaps.data == out.cache && status == out.status && HasSent(out.sent)
    {
      hide PlayerCar, Size, Decode, RouteHistory, NormalizeElement, Envelope, OfKind;
      if header.None? {
        assert HasSent([]) by { NothingSent(); }
        return Panicked;
      }
      var h := header.value;
      if IsCarArray(h.packetId) {
        var car := UnpackPlayerCar(h, data, Element(h.packetId));
        match car
        case BodyTooShort =>
          status := TooShort;
        case NoSuchCar =>
          status := Panicked;
        case Car(v) =>
          SendElement(h, v, clock);
          return Routed;
      } else if h.packetId == SESSION_HISTORY_PACKET {
        var body := data.UnpackBody(SESSION_HISTORY);
        if body == Short {
          status := TooShort;
        } else {
          status := RouteSessionHistory(h, SessionHistoryOf(body.v), clock);
          return;
        }
      } else if h.packetId == MOTION_EX_PACKET {
        var body := data.UnpackBody(EXTENDED_MOTION);
        if body == Short {
          status := TooShort;
        } else {
          SendWheels(h, NormalizeMotionEx(ExtendedMotionOf(body.v)), clock);
          return Routed;
        }
      } else {
        status := Routed;
      }
      NothingSent();
    }

    twostate lemma NothingSent()
      requires forall k: Kind :: Sent(k) == old(Sent(k))
      ensures HasSent([])
    {
    }

    /** Decodes a copy of the packet, and panics where it slices the array of laps by the
        announced number of laps. */
    method HandleCapture(packet: seq<byte>, elapsed: bool, wrote: bool) returns (panicked: bool)
      ensures panicked == CapturePanics(packet, elapsed, wrote)
    {
      hide Decode, Size, HeaderOf, SessionHistoryOf;
      var reader := new F123PacketBuffer(packet);
      PacketHeaderOffsets();
      var header := reader.UnpackHeader();
      if header.None? {
        return false;
      }
      HeaderAgrees(packet, 0);
      if header.value.packetId == SESSION_HISTORY_PACKET {
        var body := reader.UnpackBody(SESSION_HISTORY);
        if body == Short {
          return false;
        }
        var history := SessionHistoryOf(body.v);
        if history.currentCarIdx == header.value.playerCarIndex && history.numLaps > 1 && elapsed && wrote {
          return history.numLaps > |history.lapHistoryData|;
        }
      }
      return false;
    }

    /** One packet, with or without capture. */
    method HandlePacket(packet: seq<byte>, clock: Clock, elapsed: bool, wrote: bool) returns (status: Status)
      modifies this, latestLaps
      ensures var out := if capture then HandleWithCapture(old(latestLaps.data), packet, clock, elapsed, wrote)
                         else FromBytes(old(latestLaps.data), packet, clock);
              latestLaps.data == out.cache && status == out.status && HasSent(out.sent)
    {
      hide FromBytes, Ingest.Route, CapturePanics, Decode, HeaderOf, HeaderAt, Size, OfKind;
      HandleIsFromBytes(latestLaps.data, packet, clock);
      if capture {
        var panicked := HandleCapture(packet, elapsed, wrote);
        if panicked {
          NothingSent();
          return Panicked;
        }
      }
      var buffer := new F123PacketBuffer(packet);
      PacketHeaderOffsets();
      var header := buffer.UnpackHeader();
      if header.Some? {
        HeaderAgrees(packet, 0);
        RouteIsFromBytes(latestLaps.data, packet, header.value, clock);
      }
      status := Route(header, buffer, clock);
    }

    /** The cache and the channels are those of a run over these packets. */
    ghost predicate Reflects(ps: seq<Datagram>)
      reads this, latestLaps
    {
      && latestLaps.data == After(ps).cache
      && forall k: Kind :: Sent(k) == OfKind(k, Flat(After(ps).outputs))
    }

    /** Handles queued packets in order until the queue is closed or a packet panics. The
        channels then hold exactly what a run over the handled packets sends. Whether a
        second has passed and whether a capture file could be written are the
        environment's choice. */
    method Consume(queued: seq<Datagram>, ghost before: seq<Datagram>) returns (n: nat, closed: bool)
      requires Reflects(before) && After(before).alive
      modifies this, latestLaps
      ensures n <= |queued| && Reflects(before + queued[..n])
      ensures closed ==> n == |queued| && After(before + queued[..n]).alive
      ensures !closed ==> || !After(before + queued[..n]).alive
                          || (capture && n < |queued| && AnnouncesTooMany(queued[n].bytes))
    {
      hide FromBytes, After, OfKind, Flat;
      n := 0;
      assert before + queued[..0] == before;
      while n < |queued|
        invariant n <= |queued| && Reflects(before + queued[..n]) && After(before + queued[..n]).alive
      {
        var p := queued[n];
        ghost var done := before + queued[..n];
        assert before + queued[..n + 1] == done + [p];
        var elapsed: bool, wrote: bool := *, *;
        var status := HandlePacket(p.bytes, p.clock, elapsed, wrote);
        CapturePanicsExactly(p.bytes, elapsed, wrote);
        RunGrows(done, p);
        if capture && AnnouncesTooMany(p.bytes) && elapsed && wrote {
          return n, false;
        }
        n := n + 1;
        if status == Panicked {
          return n, false;
        }
      }
      return n, true;
    }
  }

  lemma RunGrows(ps: seq<Datagram>, p: Datagram)
    requires After(ps).alive
    ensures var before, out := After(ps), FromBytes(After(ps).cache, p.bytes, p.clock);
            && HandlePacket(After(ps).cache, p.bytes, p.clock) == out
            && After(ps + [p]).cache == out.cache
            && After(ps + [p]).alive == (out.status != Panicked)
            && (forall k ::
                  OfKind(k, Flat(After(ps + [p]).outputs)) == OfKind(k, Flat(before.outputs)) + OfKind(k, out.sent))
            && (forall k :: OfKind(k, []) == [])
  {
    hide FromBytes, Ingest.HandlePacket;
    HandleIsFromBytes(After(ps).cache, p.bytes, p.clock);
    assert (ps + [p])[..|ps|] == ps;
    var outs, o := After(ps).outputs, FromBytes(After(ps).cache, p.bytes, p.clock).sent;
    assert (outs + [o])[..|outs|] == outs;
    forall k ensures OfKind(k, Flat(outs + [o])) == OfKind(k, Flat(outs)) + OfKind(k, o) {
      OfKindAppend(k, Flat(outs), o);
    }
  }
}

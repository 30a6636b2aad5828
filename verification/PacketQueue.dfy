/** The listener and its packet queue: each datagram is read into its own buffer, and a
    slice of that buffer is handed over. */
module PacketQueue {
  import opened Wrappers
  import opened PackedCodec

  const MAX_PACKET_SIZE: nat := 2048

  datatype NetError = DeadlineExceeded | Broken(code: int)

  /** What one read of the socket yields: a datagram, empty if there was none, and an error. */
  datatype Reading = Reading(bytes: seq<byte>, err: Option<NetError>)

  /** What can happen around the listener: a cancellation, a read, or the consumer taking
      a packet. */
  datatype Event = Cancelled | Read(r: Reading) | Taken

  datatype Slice = Slice(buf: array<byte>, len: nat)

  /** The bytes of a datagram that fit in the buffer. */
  function Fitting(bytes: seq<byte>): (fit: seq<byte>)
    ensures |fit| <= MAX_PACKET_SIZE && fit <= bytes
  {
    if |bytes| <= MAX_PACKET_SIZE then bytes else bytes[..MAX_PACKET_SIZE]
  }

  predicate Fatal(r: Reading) {
    r.bytes == [] && r.err.Some? && r.err != Some(DeadlineExceeded)
  }

  /** The packets that a run of `Listen` passes on, and the error it ends with: bytes are
      passed on even if they came with an error, and only a read without bytes can end it. */
  function Heard(script: seq<Event>): seq<seq<byte>> {
    if script == [] then []
    else
      match script[0]
      case Cancelled => []
      case Taken => Heard(script[1..])
      case Read(r) =>
        if r.bytes != [] then [Fitting(r.bytes)] + Heard(script[1..])
        else if Fatal(r) then []
        else Heard(script[1..])
  }

  function EndsWith(script: seq<Event>): Option<NetError> {
    if script == [] then None
    else
      match script[0]
      case Cancelled => None
      case Taken => EndsWith(script[1..])
      case Read(r) => if Fatal(r) then r.err else EndsWith(script[1..])
  }

  // ---- which reads end it ----------------------------------------------------

  /** The events that end a run: a cancellation, or a read that yields no bytes and a real
      failure. An expired deadline is just a second without a datagram. */
  predicate Ends(e: Event) {
    e.Cancelled? || (e.Read? && e.r.bytes == [] && e.r.err.Some? && e.r.err.value.Broken?)
  }

  /** The datagrams read, in order, each cut off at 2048 bytes. */
  function Datagrams(script: seq<Event>): seq<seq<byte>> {
    if script == [] then []
    else
      var e := script[0];
      (if e.Read? && e.r.bytes != [] then [if |e.r.bytes| <= 2048 then e.r.bytes else e.r.bytes[..2048]] else [])
      + Datagrams(script[1..])
  }

  /** As long as no event ends it, the listener passes on every datagram, in order. */
  lemma {:induction false} HearsEverything(script: seq<Event>)
    requires forall e | e in script :: !Ends(e)
    ensures Heard(script) == Datagrams(script) && EndsWith(script) == None
  {
    if script != [] {
      assert script[0] in script;
      assert forall e | e in script[1..] :: e in script;
      HearsEverything(script[1..]);
    }
  }

  /** The first event that ends it does: everything read before is passed on and nothing
      after, and the error is that of the failed read, or none for a cancellation. */
  lemma {:induction false} StopsAtFirst(script: seq<Event>, i: nat)
    requires i < |script| && Ends(script[i]) && forall j | 0 <= j < i :: !Ends(script[j])
    ensures Heard(script) == Datagrams(script[..i])
    ensures EndsWith(script) == if script[i].Read? then script[i].r.err else None
  {
    if i > 0 {
      assert !Ends(script[0]);
      StopsAtFirst(script[1..], i - 1);
      assert script[1..][..i - 1] == script[..i][1..];
    }
  }

  /** An idle second never ends it. */
  lemma {:induction false} NeverTheDeadline(script: seq<Event>)
    ensures EndsWith(script) != Some(DeadlineExceeded)
  {
    if script != [] {
      NeverTheDeadline(script[1..]);
    }
  }

  /** How many packets the consumer has taken after a script that starts with n packets
      queued: one for each of its turns that finds a packet, and one whenever a send
      finds the queue full. */
  function Takes(script: seq<Event>, n: nat, capacity: nat): nat {
    if script == [] then 0
    else
      match script[0]
      case Cancelled => 0
      case Taken => if n > 0 then 1 + Takes(script[1..], n - 1, capacity) else Takes(script[1..], n, capacity)
      case Read(r) =>
        if r.bytes != [] then
          if n < capacity then Takes(script[1..], n + 1, capacity) else 1 + Takes(script[1..], n, capacity)
        else if Fatal(r) then 0
        else Takes(script[1..], n, capacity)
  }

  class F123PacketListener {
    var queue: seq<Slice>
    const capacity: nat
    var finishedWithError: Option<NetError>
    /** Every packet passed on so far, and those that the consumer has taken. */
    ghost var received: seq<seq<byte>>
    ghost var consumed: seq<seq<byte>>

    ghost function Buffers(): set<object>
      reads this
    {
      set i | 0 <= i < |queue| :: queue[i].buf
    }

    /** The packets taken, followed by the packets queued, are the packets received: each
        queued slice still holds the bytes it was read with, in a buffer of its own. One
        packet over the capacity is the one that the listener is trying to send. */
    ghost predicate Valid()
      reads this, Buffers()
    {
      && |queue| <= capacity + 1
      && |received| == |consumed| + |queue|
      && consumed == received[..|consumed|]
      && (forall i | 0 <= i < |queue| ::
            && queue[i].len <= queue[i].buf.Length
            && queue[i].buf[..queue[i].len] == received[|consumed| + i])
      && (forall i, j | 0 <= i < j < |queue| :: queue[i].buf != queue[j].buf)
    }

    constructor (capacity: nat)
      ensures Valid() && queue == [] && received == [] && finishedWithError == None && this.capacity == capacity
    {
      this.capacity := capacity;
      queue, finishedWithError, received, consumed := [], None, [], [];
    }

    /** `ReadFrom`: copies what fits into the buffer. */
    method ReadFrom(packet: array<byte>, r: Reading) returns (numRead: nat)
      requires packet.Length == MAX_PACKET_SIZE
      modifies packet
      ensures numRead == |Fitting(r.bytes)|
      ensures packet[..numRead] == Fitting(r.bytes)
    {
      numRead := |Fitting(r.bytes)|;
      for i := 0 to numRead
        invariant packet[..i] == r.bytes[..i]
      {
        packet[i] := r.bytes[i];
      }
    }

    /** The consumer takes the oldest packet, and the buffer with it: it may write to it. */
    method Take(scribble: byte) returns (packet: seq<byte>)
      requires Valid() && queue != []
      modifies this, Buffers()
      ensures Valid() && received == old(received) && finishedWithError == old(finishedWithError)
      ensures packet == old(received)[|old(consumed)|] && consumed == old(consumed) + [packet]
      ensures queue == old(queue)[1..]
    {
      var slice := queue[0];
      packet := slice.buf[..slice.len];
      queue := queue[1..];
      consumed := consumed + [packet];
      if slice.buf.Length > 0 {
        slice.buf[0] := scribble;
      }
    }

    /** One read: a new buffer, and a slice of it for the queue if any bytes came. */
    method ReadOne(r: Reading)
      requires Valid() && |queue| <= capacity
      modifies this
      ensures Valid() && consumed == old(consumed)
      ensures finishedWithError == if Fatal(r) then r.err else old(finishedWithError)
      ensures received == old(received) + if r.bytes != [] then [Fitting(r.bytes)] else []
      ensures |queue| == |old(queue)| + if r.bytes != [] then 1 else 0
      ensures |queue| <= capacity + 1
      ensures forall b | b in Buffers() :: b in old(Buffers()) || fresh(b)
    {
      var packet := new byte[MAX_PACKET_SIZE];
      var numRead := ReadFrom(packet, r);
      if numRead > 0 {
        queue := queue + [Slice(packet, numRead)];
        received := received + [Fitting(r.bytes)];
      } else if r.err.Some? && r.err != Some(DeadlineExceeded) {
        finishedWithError := r.err;
      }
    }

    /** `Listen`, interleaved with the consumer in any way: a send to the full queue waits
        for the consumer to take a packet, and with no capacity every send does. Packets
        pass in order, none is lost, repeated or changed; an error that ended an earlier
        call is returned again without reading. */
    method Listen(script: seq<Event>, scribble: byte) returns (err: Option<NetError>)
      requires Valid() && |queue| <= capacity
      modifies this, Buffers()
      ensures Valid() && |queue| <= capacity
      ensures old(finishedWithError).Some? ==>
                err == old(finishedWithError) && received == old(received) && queue == old(queue)
      ensures old(finishedWithError).None? ==> err == EndsWith(script) && received == old(received) + Heard(script)
      ensures finishedWithError == err
      ensures old(consumed) <= consumed
      ensures old(finishedWithError).None? ==>
                |consumed| == |old(consumed)| + Takes(script, |old(queue)|, capacity)
    {
      hide Valid;
      if finishedWithError.Some? {
        return finishedWithError;
      }
      ghost var before := received;
      for i := 0 to |script|
        invariant Valid() && finishedWithError == None && |queue| <= capacity
        invariant before + Heard(script) == received + Heard(script[i..])
        invariant EndsWith(script) == EndsWith(script[i..])
        invariant old(consumed) <= consumed
        invariant |consumed| + Takes(script[i..], |queue|, capacity)
               == |old(consumed)| + Takes(script, |old(queue)|, capacity)
        invariant forall b | b in Buffers() :: b in old(Buffers()) || fresh(b)
      {
        assert script[i..][1..] == script[i + 1..];
        match script[i]
        case Cancelled =>
          return None;
        case Taken =>
          if |queue| > 0 {
            var _ := Take(scribble);
          }
        case Read(r) =>
          ReadOne(r);
          if |queue| > capacity {
            var _ := Take(scribble);
          }
          if finishedWithError.Some? {
            return finishedWithError;
          }
      }
      return None;
    }
  }
}

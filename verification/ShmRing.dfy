/**
 The shared-memory ring (gcos/osprims/shm.py): length-prefixed frames in a byte
 buffer with monotonic head and tail offsets. One producer's `send` and one
 consumer's `recv` are taken as atomic. Offsets are unbounded integers.
 */
module ShmRing {
  import opened Basics

  const WORD := 0x1_0000_0000

  // ----- framing: struct "<I" then the payload -----

  function Pack(n: nat): (s: seq<byte>)
    requires n < WORD
    ensures |s| == 4
  {
    [n % 256, n / 256 % 256, n / 0x1_0000 % 256, n / 0x100_0000]
  }

  function Unpack(s: seq<byte>): nat
    requires |s| == 4
  {
    var a: int, b: int, c: int, d: int := s[0], s[1], s[2], s[3];
    a + 256 * b + 0x1_0000 * c + 0x100_0000 * d
  }

  lemma {:induction false} UnpackPack(n: nat)
    requires n < WORD
    ensures Unpack(Pack(n)) == n
  {
    var a, b := n / 256, n / 0x1_0000;
    assert b == a / 256 && n / 0x100_0000 == b / 256;
  }

  /** The prefix is four bytes, least significant first. */
  lemma {:induction false} PackIsLittleEndian(n: nat)
    requires n < WORD
    ensures var a: int, b: int, c: int, d: int := Pack(n)[0], Pack(n)[1], Pack(n)[2], Pack(n)[3];
      n == a + 256 * b + 256 * 256 * c + 256 * 256 * 256 * d
  {
    UnpackPack(n);
  }

  type Payload = p: seq<byte> | |p| < WORD

  function Frame(p: Payload): seq<byte> {
    Pack(|p|) + p
  }

  /** The byte stream of a queue of messages. */
  function Frames(ms: seq<Payload>): seq<byte> {
    if ms == [] then [] else Frame(ms[0]) + Frames(ms[1..])
  }

  lemma {:induction false} FramesAppend(ms: seq<Payload>, p: Payload)
    ensures Frames(ms + [p]) == Frames(ms) + Frame(p)
  {
    if ms == [] {
      assert ms + [p] == [p] && [p][1..] == [];
    } else {
      assert (ms + [p])[1..] == ms[1..] + [p];
      FramesAppend(ms[1..], p);
      assert Frame(ms[0]) + (Frames(ms[1..]) + Frame(p)) == Frame(ms[0]) + Frames(ms[1..]) + Frame(p);
    }
  }

  /** A non-empty stream starts with the length and the bytes of its oldest message. */
  lemma {:induction false} FramesHead(ms: seq<Payload>)
    requires ms != []
    ensures var s, p := Frames(ms), ms[0];
      |s| >= 4 + |p| && s[..4] == Pack(|p|) && s[4..4 + |p|] == p && s[4 + |p|..] == Frames(ms[1..])
  {
    var p, rest := ms[0], Frames(ms[1..]);
    assert Frames(ms) == Frame(p) + rest;
    assert |Frame(p)| == 4 + |p|;
  }

  // ----- a stream of bytes laid around the buffer -----

  function Slot(x: nat, cap: nat): (k: nat)
    requires cap > 0
    ensures k < cap
  {
    x % cap
  }

  lemma {:induction false} MultiplesAreFar(k: int, cap: int)
    requires cap > 0
    ensures k >= 1 ==> k * cap >= cap
    ensures k <= -1 ==> k * cap <= -cap
  {
  }

  lemma {:induction false} ModIs(x: int, q: int, r: int, cap: int)
    requires cap > 0 && x == q * cap + r && 0 <= r < cap
    ensures x % cap == r
  {
    var q', r' := x / cap, x % cap;
    assert x == q' * cap + r';
    assert (q' - q) * cap == r - r';
    MultiplesAreFar(q' - q, cap);
  }

  /** Two offsets less than the capacity apart use different slots. */
  lemma {:induction false} SlotsDiffer(x: nat, d: nat, cap: nat)
    requires 0 < d < cap
    ensures Slot(x + d, cap) != Slot(x, cap)
  {
    var q, r := x / cap, x % cap;
    assert x == q * cap + r;
    if r + d < cap {
      ModIs(x + d, q, r + d, cap);
    } else {
      assert x + d == (q + 1) * cap + (r + d - cap);
      ModIs(x + d, q + 1, r + d - cap, cap);
    }
  }

  /** Starting at offset `from`, the buffer holds the bytes s, wrapping around its end. */
  predicate Carries(b: seq<byte>, from: nat, s: seq<byte>) {
    |s| <= |b| && forall i :: 0 <= i < |s| ==> b[Slot(from + i, |b|)] == s[i]
  }

  /** Writing one more byte behind the stream extends it and overwrites none of it. */
  lemma {:induction false} CarriesMore(b: seq<byte>, from: nat, s: seq<byte>, x: byte)
    requires Carries(b, from, s) && |s| < |b|
    ensures Carries(b[Slot(from + |s|, |b|) := x], from, s + [x])
  {
    var b', s' := b[Slot(from + |s|, |b|) := x], s + [x];
    forall i | 0 <= i < |s'|
      ensures b'[Slot(from + i, |b'|)] == s'[i]
    {
      if i < |s| {
        SlotsDiffer(from + i, |s| - i, |b|);
        assert from + |s| == from + i + (|s| - i);
      }
    }
  }

  lemma {:induction false} CarriesRest(b: seq<byte>, from: nat, s: seq<byte>, n: nat)
    requires Carries(b, from, s) && n <= |s|
    ensures Carries(b, from + n, s[n..])
  {
    forall i | 0 <= i < |s[n..]|
      ensures b[Slot(from + n + i, |b|)] == s[n..][i]
    {
      assert s[n..][i] == s[n + i];
      assert from + n + i == from + (n + i);
    }
  }

  // ----- the ring -----

  datatype SendResult = Sent | Full | TooLarge | TooLongToPack

  class Ring {
    const capacity: nat
    const buf: array<byte>
    var head: nat
    var tail: nat
    /** The messages sent and not yet received, oldest first. */
    ghost var pending: seq<Payload>

    /** The bytes between tail and head are exactly the frames of the pending messages. */
    ghost predicate Valid()
      reads this, buf
    {
      && buf.Length == capacity
      && tail <= head <= tail + capacity
      && |Frames(pending)| == head - tail
      && Carries(buf[..], tail, Frames(pending))
    }

    constructor (capacity: nat)
      ensures Valid() && this.capacity == capacity && pending == [] && fresh(buf)
    {
      this.capacity := capacity;
      buf := new byte[capacity](_ => 0);
      head, tail := 0, 0;
      pending := [];
    }

    /**
     Refuses exactly when the frame does not fit beside what is pending; what is
     pending is never overwritten.
     */
    method Send(payload: seq<byte>) returns (r: SendResult)
      requires Valid()
      modifies this, buf
      ensures Valid()
      ensures r.TooLongToPack? <==> |payload| >= WORD
      ensures r.TooLarge? <==> |payload| < WORD && 4 + |payload| > capacity
      ensures r.Sent? <==> |payload| < WORD && |Frames(old(pending))| + 4 + |payload| <= capacity
      ensures pending == if r.Sent? then old(pending) + [payload] else old(pending)
    {
      if |payload| >= WORD {
        return TooLongToPack;
      }
      var frame := Pack(|payload|) + payload;
      if |frame| > capacity {
        return TooLarge;
      }
      if head - tail + |frame| > capacity {
        return Full;
      }
      WriteBytes(frame);
      FramesAppend(pending, payload);
      head := head + |frame|;
      pending := pending + [payload];
      return Sent;
    }

    /** The bytes are laid behind the pending ones, one by one around the ring. */
    method WriteBytes(frame: seq<byte>)
      requires Valid() && head - tail + |frame| <= capacity
      modifies buf
      ensures Carries(buf[..], tail, Frames(pending) + frame)
    {
      ghost var before := Frames(pending);
      assert before + frame[..0] == before;
      for i := 0 to |frame|
        invariant Carries(buf[..], tail, before + frame[..i])
      {
        CarriesMore(buf[..], tail, before + frame[..i], frame[i]);
        assert before + frame[..i] + [frame[i]] == before + frame[..i + 1];
        buf[Slot(head + i, capacity)] := frame[i];
      }
      assert frame[..|frame|] == frame;
    }

    /** Bytes [from, from + n) counted from the tail, read one by one around the ring. */
    method ReadBytes(from: nat, n: nat) returns (s: seq<byte>)
      requires Valid() && from + n <= head - tail
      ensures s == Frames(pending)[from..from + n]
    {
      s := [];
      for i := 0 to n
        invariant s == Frames(pending)[from..from + i]
      {
        assert tail + from + i == tail + (from + i);
        s := s + [buf[Slot(tail + from + i, capacity)]];
      }
    }

    /**
     Returns the oldest message unchanged, or None exactly when there is none.
     The "partial frame" branch cannot be reached.
     */
    method Receive() returns (data: seq<byte>, some: bool)
      requires Valid()
      modifies this
      ensures Valid()
      ensures some <==> old(pending) != []
      ensures some ==> data == old(pending)[0] && pending == old(pending)[1..]
      ensures !some ==> pending == old(pending)
    {
      data, some := [], false;
      if pending != [] {
        FramesHead(pending);
      }
      if head - tail < 4 {
        return;
      }
      ghost var stream := Frames(pending);
      var lb := ReadBytes(0, 4);
      UnpackPack(|pending[0]|);
      var n := Unpack(lb);
      if head - tail < 4 + n {
        assert false;
      } else {
        data := ReadBytes(4, n);
        some := true;
        CarriesRest(buf[..], tail, stream, 4 + n);
        tail := tail + 4 + n;
        pending := pending[1..];
      }
    }
  }

  // ----- histories -----

  datatype Op = DoSend(p: Payload) | DoReceive

  /** The ring as a bounded FIFO queue; `sent` and `got` record accepted and delivered messages. */
  datatype Fifo = Fifo(q: seq<Payload>, sent: seq<Payload>, got: seq<Payload>)

  function Step(cap: nat, f: Fifo, op: Op): Fifo {
    match op
    case DoSend(p) =>
      if |Frames(f.q)| + 4 + |p| <= cap then Fifo(f.q + [p], f.sent + [p], f.got) else f
    case DoReceive =>
      if f.q == [] then f else Fifo(f.q[1..], f.sent, f.got + [f.q[0]])
  }

  function Run(cap: nat, f: Fifo, ops: seq<Op>): Fifo
    decreases |ops|
  {
    if ops == [] then f else Run(cap, Step(cap, f, ops[0]), ops[1..])
  }

  /**
   Over any history nothing is lost, duplicated or reordered: what was accepted
   is what was delivered followed by what is pending, which always fits.
   */
  lemma {:induction false} NothingLostOrReordered(cap: nat, f: Fifo, ops: seq<Op>)
    requires f.sent == f.got + f.q && |Frames(f.q)| <= cap
    ensures var r := Run(cap, f, ops); r.sent == r.got + r.q && |Frames(r.q)| <= cap
    decreases |ops|
  {
    if ops != [] {
      var f' := Step(cap, f, ops[0]);
      if ops[0].DoSend? {
        FramesAppend(f.q, ops[0].p);
        assert f.got + (f.q + [ops[0].p]) == f.got + f.q + [ops[0].p];
      } else if f.q != [] {
        FramesHead(f.q);
        assert f.got + [f.q[0]] + f.q[1..] == f.got + f.q;
      }
      NothingLostOrReordered(cap, f', ops[1..]);
    }
  }

  /** Any history of atomic sends and receives on a fresh byte ring behaves as the bounded FIFO queue. */
  method Serve(capacity: nat, ops: seq<Op>) returns (sent: seq<Payload>, got: seq<Payload>)
    ensures sent == Run(capacity, Fifo([], [], []), ops).sent
    ensures got == Run(capacity, Fifo([], [], []), ops).got
    ensures got <= sent
  {
    var ring := new Ring(capacity);
    sent, got := [], [];
    ghost var start := Fifo([], [], []);
    for i := 0 to |ops|
      invariant ring.Valid() && ring.capacity == capacity && fresh(ring) && fresh(ring.buf)
      invariant Run(capacity, Fifo(ring.pending, sent, got), ops[i..]) == Run(capacity, start, ops)
    {
      assert ops[i..][1..] == ops[i + 1..];
      match ops[i]
      case DoSend(p) =>
        var r := ring.Send(p);
        if r.Sent? {
          sent := sent + [p];
        }
      case DoReceive =>
        var data, some := ring.Receive();
        if some {
          got := got + [data];
        }
    }
    NothingLostOrReordered(capacity, start, ops);
  }
}

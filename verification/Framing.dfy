/**
 Length-prefixed frames and the fault proxy that relays them
 (tools/subscriptions/probe_kafka_ack_fault.py, OffsetCommitFaultProxy._relay).
 */
module Framing {
  import opened Wrappers

  type Byte = b: nat | b < 256
  type Bytes = seq<Byte>

  const MAX_FRAME := 2 * 1024 * 1024
  const TWO_31 := 0x8000_0000
  const TWO_32 := 0x1_0000_0000

  // ---- big-endian signed integers ------------------------------------------------------------

  function Unsigned(s: Bytes): nat {
    if s == [] then 0 else 256 * Unsigned(s[..|s| - 1]) + ByteValue(s[|s| - 1])
  }

  function ByteValue(b: Byte): nat { b }

  function Digits(u: nat, width: nat): (s: Bytes)
    ensures |s| == width
  {
    if width == 0 then [] else Digits(u / 256, width - 1) + [u % 256]
  }

  function Limit(width: nat): nat {
    if width == 0 then 1 else 256 * Limit(width - 1)
  }

  lemma {:induction false} DigitsRead(u: nat, width: nat)
    requires u < Limit(width)
    ensures Unsigned(Digits(u, width)) == u
  {
    if width > 0 {
      DigitsRead(u / 256, width - 1);
      var s := Digits(u, width);
      assert s[..|s| - 1] == Digits(u / 256, width - 1);
    }
  }

  lemma {:induction false} ReadDigits(s: Bytes)
    ensures Unsigned(s) < Limit(|s|) && Digits(Unsigned(s), |s|) == s
  {
    if s != [] {
      ReadDigits(s[..|s| - 1]);
      assert Unsigned(s) / 256 == Unsigned(s[..|s| - 1]) && Unsigned(s) % 256 == s[|s| - 1];
    }
  }

  function Signed(u: nat, half: nat): int {
    if u < half then u else u - 2 * half
  }

  /** `struct.unpack_from(">i", s)` */
  function Int32(s: Bytes): int
    requires |s| >= 4
  {
    Signed(Unsigned(s[..4]), TWO_31)
  }

  /** `struct.pack(">i", n)` */
  function Pack32(n: int): (s: Bytes)
    requires -TWO_31 <= n < TWO_31
    ensures |s| == 4
  {
    Digits(if n < 0 then n + TWO_32 else n, 4)
  }

  /** `struct.unpack_from(">h", s)` */
  function Int16(s: Bytes): int
    requires |s| >= 2
  {
    Signed(Unsigned(s[..2]), 0x8000)
  }

  lemma {:induction false} PackThenRead(n: int, tail: Bytes)
    requires -TWO_31 <= n < TWO_31
    ensures Int32(Pack32(n) + tail) == n
  {
    DigitsRead(if n < 0 then n + TWO_32 else n, 4);
    assert (Pack32(n) + tail)[..4] == Pack32(n);
  }

  lemma {:induction false} ReadThenPack(s: Bytes)
    requires |s| == 4
    ensures -TWO_31 <= Int32(s) < TWO_31 && Pack32(Int32(s)) == s
  {
    ReadDigits(s);
    assert s[..4] == s;
  }

  // ---- frames --------------------------------------------------------------------------------

  predicate SizeOk(size: int) {
    4 <= size <= MAX_FRAME
  }

  /** The complete frames at the front, what is left, and whether an impossible size ended it. */
  datatype Parsed = Parsed(frames: seq<Bytes>, rest: Bytes, broken: bool)

  function Parse(s: Bytes): Parsed {
    if |s| < 4 then Parsed([], s, false)
    else if !SizeOk(Int32(s)) then Parsed([], s, true)
    else if |s| < Int32(s) + 4 then Parsed([], s, false)
    else
      var p := Parse(s[Int32(s) + 4..]);
      p.(frames := [s[4..Int32(s) + 4]] + p.frames)
  }

  function Framed(frame: Bytes): Bytes
    requires SizeOk(|frame|)
  {
    Pack32(|frame|) + frame
  }

  predicate AllSized(frames: seq<Bytes>) {
    forall i :: 0 <= i < |frames| ==> SizeOk(|frames[i]|)
  }

  function Emit(frames: seq<Bytes>): Bytes
    requires AllSized(frames)
  {
    if frames == [] then [] else Framed(frames[0]) + Emit(frames[1..])
  }

  lemma {:induction false} FramedThenParse(frame: Bytes, tail: Bytes)
    requires SizeOk(|frame|)
    ensures Parse(Framed(frame) + tail) == Parse(tail).(frames := [frame] + Parse(tail).frames)
  {
    var s, size := Framed(frame) + tail, |frame|;
    PackThenRead(size, frame + tail);
    assert s == Pack32(size) + (frame + tail);
    assert s[4..size + 4] == frame && s[size + 4..] == tail;
  }

  lemma {:induction false} Assoc<T>(a: seq<T>, b: seq<T>, c: seq<T>)
    ensures (a + b) + c == a + (b + c)
  {
  }

  /** What was framed is read back, and nothing else. */
  lemma {:induction false} EmitThenParse(frames: seq<Bytes>, rest: Bytes)
    requires AllSized(frames)
    ensures Parse(Emit(frames) + rest) == Parse(rest).(frames := frames + Parse(rest).frames)
    decreases |frames|
  {
    if frames == [] {
      assert Emit(frames) + rest == rest;
    } else {
      var more := frames[1..];
      EmitThenParse(more, rest);
      FramedThenParse(frames[0], Emit(more) + rest);
      Assoc(Framed(frames[0]), Emit(more), rest);
      Assoc([frames[0]], more, Parse(rest).frames);
      assert frames == [frames[0]] + more;
    }
  }

  lemma {:induction false} HeaderAndBody(s: Bytes)
    requires |s| >= 4 && SizeOk(Int32(s)) && |s| >= Int32(s) + 4
    ensures Framed(s[4..Int32(s) + 4]) + s[Int32(s) + 4..] == s
  {
    assert s[..4][..4] == s[..4];
    ReadThenPack(s[..4]);
  }

  /** Reading loses nothing: the frames and the rest make up the stream. */
  lemma {:induction false} ParseThenEmit(s: Bytes)
    ensures AllSized(Parse(s).frames) && Emit(Parse(s).frames) + Parse(s).rest == s
    decreases |s|
  {
    if |s| >= 4 && SizeOk(Int32(s)) && |s| >= Int32(s) + 4 {
      var frame, p := s[4..Int32(s) + 4], Parse(s[Int32(s) + 4..]);
      ParseThenEmit(s[Int32(s) + 4..]);
      HeaderAndBody(s);
      Assoc(Framed(frame), Emit(p.frames), p.rest);
    }
  }

  // ---- what the proxy does with a frame ------------------------------------------------------

  datatype Fault = DropRequest | DropResponse | LateRequest

  /** The proxy's settings and, per frame, what it meets: see `_relay`. */
  datatype Proxy = Proxy(isResponse: bool, fault: Fault, upstreamPort: int, port: int)

  datatype Met = Met(armed: bool, allowed: bool, popped: Option<(int, bool)>)

  datatype Handled = Forward(frame: Bytes) | Drop | Stop

  /** `frame.replace(old, new)` */
  function Replace(s: Bytes, from: Bytes, to: Bytes): (r: Bytes)
    requires |from| == |to| > 0
    ensures |r| == |s|
  {
    if |s| < |from| then s
    else if s[..|from|] == from then to + Replace(s[|from|..], from, to)
    else [s[0]] + Replace(s[1..], from, to)
  }

  predicate PortsOk(p: Proxy) {
    0 <= p.upstreamPort < 0x1_0000 && 0 <= p.port < 0x1_0000
  }

  function HandleResponse(p: Proxy, m: Met, frame: Bytes): Handled
    requires PortsOk(p)
  {
    var (api, armed) := if m.popped.Some? then m.popped.value else (-1, false);
    if api == 8 && armed && p.fault.DropResponse? then Drop
    else if api == 3 || api == 10 then Forward(Replace(frame, Pack32(p.upstreamPort), Pack32(p.port)))
    else Forward(frame)
  }

  /** A request frame too short for a correlation id ends the relay. */
  function HandleRequest(p: Proxy, m: Met, frame: Bytes): Handled {
    if |frame| < 8 then Stop
    else if !(Int16(frame) == 8 && m.armed) then Forward(frame)
    else if p.fault.DropRequest? then Drop
    else if p.fault.LateRequest? && !m.allowed then Stop
    else Forward(frame)
  }

  function Handle(p: Proxy, m: Met, frame: Bytes): (h: Handled)
    requires PortsOk(p)
    ensures h.Forward? ==> |h.frame| == |frame|
  {
    if p.isResponse then HandleResponse(p, m, frame) else HandleRequest(p, m, frame)
  }

  /** The frames sent on, given those received from the k-th on. */
  function Deliver(p: Proxy, met: nat -> Met, k: nat, frames: seq<Bytes>): seq<Bytes>
    requires PortsOk(p)
    decreases |frames|
  {
    if frames == [] then []
    else match Handle(p, met(k), frames[0])
      case Forward(frame) => [frame] + Deliver(p, met, k + 1, frames[1..])
      case Drop => Deliver(p, met, k + 1, frames[1..])
      case Stop => []
  }

  lemma {:induction false} DeliverKeepsSizes(p: Proxy, met: nat -> Met, k: nat, frames: seq<Bytes>)
    requires PortsOk(p) && AllSized(frames)
    ensures AllSized(Deliver(p, met, k, frames))
    decreases |frames|
  {
    if frames != [] {
      DeliverKeepsSizes(p, met, k + 1, frames[1..]);
      var h := Handle(p, met(k), frames[0]);
      if h.Forward? {
        var sent, rest := Deliver(p, met, k, frames), Deliver(p, met, k + 1, frames[1..]);
        assert sent == [h.frame] + rest;
        forall i | 0 <= i < |sent| ensures SizeOk(|sent[i]|) {
          assert i == 0 || sent[i] == rest[i - 1];
        }
      }
    }
  }

  function Concat(chunks: seq<Bytes>): Bytes {
    if chunks == [] then [] else chunks[0] + Concat(chunks[1..])
  }

  lemma {:induction false} EmitMore(frames: seq<Bytes>, frame: Bytes)
    requires AllSized(frames) && SizeOk(|frame|)
    ensures AllSized(frames + [frame]) && Emit(frames + [frame]) == Emit(frames) + Framed(frame)
    decreases |frames|
  {
    if frames == [] {
      assert [frame][1..] == [];
      assert Emit([frame]) == Framed(frame) + Emit([]);
    } else {
      EmitMore(frames[1..], frame);
      assert (frames + [frame])[1..] == frames[1..] + [frame];
    }
  }

  /** One complete frame is taken off the buffer. */
  lemma {:induction false} TakeFrame(buffered: Bytes, tail: Bytes)
    requires |buffered| >= 4 && SizeOk(Int32(buffered)) && |buffered| >= Int32(buffered) + 4
    ensures var size := Int32(buffered);
            Parse(buffered + tail).frames == [buffered[4..size + 4]] + Parse(buffered[size + 4..] + tail).frames
  {
    var s, size := buffered + tail, Int32(buffered);
    assert s[..4] == buffered[..4];
    assert s[4..size + 4] == buffered[4..size + 4] && s[size + 4..] == buffered[size + 4..] + tail;
  }

  /** What is still to be sent when `buffered` is at hand and `tail` has yet to arrive. */
  function ToSend(p: Proxy, met: nat -> Met, k: nat, buffered: Bytes, tail: Bytes): seq<Bytes>
    requires PortsOk(p)
  {
    Deliver(p, met, k, Parse(buffered + tail).frames)
  }

  lemma {:induction false} ToSendFirst(p: Proxy, met: nat -> Met, k: nat, buffered: Bytes, tail: Bytes)
    requires PortsOk(p) && |buffered| >= 4 && SizeOk(Int32(buffered)) && |buffered| >= Int32(buffered) + 4
    ensures var size := Int32(buffered);
            ToSend(p, met, k, buffered, tail) ==
            match Handle(p, met(k), buffered[4..size + 4])
            case Forward(frame) => [frame] + ToSend(p, met, k + 1, buffered[size + 4..], tail)
            case Drop => ToSend(p, met, k + 1, buffered[size + 4..], tail)
            case Stop => []
  {
    TakeFrame(buffered, tail);
    var frame, following := buffered[4..Int32(buffered) + 4], Parse(buffered[Int32(buffered) + 4..] + tail).frames;
    assert ([frame] + following)[1..] == following;
  }

  lemma {:induction false} ToSendBroken(p: Proxy, met: nat -> Met, k: nat, buffered: Bytes, tail: Bytes)
    requires PortsOk(p) && |buffered| >= 4 && !SizeOk(Int32(buffered))
    ensures ToSend(p, met, k, buffered, tail) == []
  {
    assert (buffered + tail)[..4] == buffered[..4];
  }

  /** No complete frame is left in the buffer. */
  predicate Drained(buffered: Bytes) {
    |buffered| < 4 || (SizeOk(Int32(buffered)) && |buffered| < Int32(buffered) + 4)
  }

  /** The inner loop: every complete frame of the buffer is handled. */
  method Drain(p: Proxy, met: nat -> Met, k0: nat, buffered0: Bytes, ghost tail: Bytes)
    returns (sent: Bytes, ghost out: seq<Bytes>, k: nat, buffered: Bytes, stopped: bool)
    requires PortsOk(p)
    ensures AllSized(out) && sent == Emit(out)
    ensures ToSend(p, met, k0, buffered0, tail) == out + if stopped then [] else ToSend(p, met, k, buffered, tail)
    ensures !stopped ==> Drained(buffered)
  {
    sent, out, k, buffered, stopped := [], [], k0, buffered0, false;
    while |buffered| >= 4
      invariant AllSized(out) && sent == Emit(out) && !stopped
      invariant ToSend(p, met, k0, buffered0, tail) == out + ToSend(p, met, k, buffered, tail)
    {
      var size := Int32(buffered);
      if !SizeOk(size) {
        ToSendBroken(p, met, k, buffered, tail);
        stopped := true;
        return;
      }
      if |buffered| < size + 4 {
        break;
      }
      ToSendFirst(p, met, k, buffered, tail);
      var frame := buffered[4..size + 4];
      buffered := buffered[size + 4..];
      match Handle(p, met(k), frame) {
        case Forward(changed) =>
          EmitMore(out, changed);
          Assoc(out, [changed], ToSend(p, met, k + 1, buffered, tail));
          sent, out := sent + (Pack32(|changed|) + changed), out + [changed];
        case Drop =>
        case Stop =>
          stopped := true;
          return;
      }
      k := k + 1;
    }
  }

  lemma {:induction false} EmitBoth(a: seq<Bytes>, b: seq<Bytes>)
    requires AllSized(a) && AllSized(b)
    ensures AllSized(a + b) && Emit(a + b) == Emit(a) + Emit(b)
    decreases |a|
  {
    if a == [] {
      assert a + b == b;
    } else {
      EmitBoth(a[1..], b);
      assert (a + b)[1..] == a[1..] + b;
      Assoc(Framed(a[0]), Emit(a[1..]), Emit(b));
    }
  }

  /** What is still to be sent before the i-th chunk arrives. */
  function Plan(p: Proxy, met: nat -> Met, k: nat, buffered: Bytes, chunks: seq<Bytes>, i: nat): seq<Bytes>
    requires PortsOk(p) && i <= |chunks|
  {
    ToSend(p, met, k, buffered, Concat(chunks[i..]))
  }

  lemma {:induction false} PlanStarts(p: Proxy, met: nat -> Met, chunks: seq<Bytes>)
    requires PortsOk(p)
    ensures Plan(p, met, 0, [], chunks, 0) == Deliver(p, met, 0, Parse(Concat(chunks)).frames)
  {
    assert chunks[0..] == chunks && [] + Concat(chunks) == Concat(chunks);
  }

  lemma {:induction false} PlanGoesOn(p: Proxy, met: nat -> Met, k: nat, buffered: Bytes, chunks: seq<Bytes>, i: nat)
    requires PortsOk(p) && i < |chunks|
    ensures Plan(p, met, k, buffered, chunks, i) == Plan(p, met, k, buffered + chunks[i], chunks, i + 1)
  {
    assert chunks[i..][0] == chunks[i] && chunks[i..][1..] == chunks[i + 1..];
    Assoc(buffered, chunks[i], Concat(chunks[i + 1..]));
  }

  lemma {:induction false} PlanEnds(p: Proxy, met: nat -> Met, k: nat, buffered: Bytes, chunks: seq<Bytes>)
    requires PortsOk(p) && Drained(buffered)
    ensures Plan(p, met, k, buffered, chunks, |chunks|) == []
  {
    assert buffered + Concat(chunks[|chunks|..]) == buffered;
  }

  /**
   The relay: whatever way the stream is cut into chunks, it sends on exactly what handling the
   frames of the whole stream gives.
   */
  method Relay(p: Proxy, met: nat -> Met, chunks: seq<Bytes>) returns (sent: Bytes)
    requires PortsOk(p)
    ensures var frames := Deliver(p, met, 0, Parse(Concat(chunks)).frames);
            AllSized(frames) && sent == Emit(frames)
  {
    PlanStarts(p, met, chunks);
    ghost var all, out: seq<Bytes> := Plan(p, met, 0, [], chunks, 0), [];
    var buffered: Bytes, k: nat, stopped := [], 0, false;
    sent := [];
    for i := 0 to |chunks|
      invariant AllSized(out) && sent == Emit(out) && !stopped && Drained(buffered)
      invariant all == out + Plan(p, met, k, buffered, chunks, i)
    {
      PlanGoesOn(p, met, k, buffered, chunks, i);
      var bytes;
      ghost var more;
      bytes, more, k, buffered, stopped := Drain(p, met, k, buffered + chunks[i], Concat(chunks[i + 1..]));
      EmitBoth(out, more);
      Assoc(out, more, Plan(p, met, k, buffered, chunks, i + 1));
      sent, out := sent + bytes, out + more;
      if stopped {
        assert all == out;
        return;
      }
    }
    PlanEnds(p, met, k, buffered, chunks);
    assert all == out;
  }

  /** What it sends is framed: the other side reads the handled frames, each of the same size. */
  lemma {:induction false} RelayedIsFramed(p: Proxy, met: nat -> Met, stream: Bytes)
    requires PortsOk(p)
    ensures var frames := Deliver(p, met, 0, Parse(stream).frames);
            AllSized(frames) && Parse(Emit(frames)) == Parsed(frames, [], false)
  {
    var frames := Deliver(p, met, 0, Parse(stream).frames);
    ParseThenEmit(stream);
    DeliverKeepsSizes(p, met, 0, Parse(stream).frames);
    EmitThenParse(frames, []);
    assert Emit(frames) + [] == Emit(frames) && frames + [] == frames;
  }
}

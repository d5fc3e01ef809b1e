/**
  The framing of AMQP 0-9-1, section 4.2.3: a frame is a type octet, a channel
  of two octets, a payload size of four, the payload and an end octet.
 */
module Frames {
  newtype byte = n: int | 0 <= n < 256
  type bytes = seq<byte>

  const HEADER: nat := 7

  function PayloadSize(b: bytes): nat
    requires |b| >= HEADER
  {
    ((b[3] as nat * 256 + b[4] as nat) * 256 + b[5] as nat) * 256 + b[6] as nat
  }

  /** The length of the frame at the head of the buffer, end octet included. */
  function FrameLength(b: bytes): nat
    requires |b| >= HEADER
  {
    HEADER + PayloadSize(b) + 1
  }

  predicate HasFrame(b: bytes) {
    |b| >= HEADER && |b| >= FrameLength(b)
  }

  /** The complete frames at the head of a buffer, in order. */
  function Whole(b: bytes): seq<bytes> {
    if HasFrame(b) then [b[..FrameLength(b)]] + Whole(b[FrameLength(b)..]) else []
  }

  /** What is left of a buffer once its complete frames are taken off. */
  function Rest(b: bytes): bytes {
    if HasFrame(b) then Rest(b[FrameLength(b)..]) else b
  }

  function Join(parts: seq<bytes>): bytes {
    if parts == [] then [] else parts[0] + Join(parts[1..])
  }

  lemma {:induction false} NothingIsLost(b: bytes)
    ensures Join(Whole(b)) + Rest(b) == b
    ensures !HasFrame(Rest(b))
  {
    if HasFrame(b) {
      var n := FrameLength(b);
      NothingIsLost(b[n..]);
      assert Whole(b)[1..] == Whole(b[n..]);
      assert b == b[..n] + b[n..];
    }
  }

  lemma HeadStays(a: bytes, b: bytes)
    requires HasFrame(a)
    ensures HasFrame(a + b) && FrameLength(a + b) == FrameLength(a)
    ensures (a + b)[..FrameLength(a)] == a[..FrameLength(a)]
    ensures (a + b)[FrameLength(a)..] == a[FrameLength(a)..] + b
  {
  }

  /** Frames can be taken off before more bytes come, or after: it makes no difference. */
  lemma {:induction false} SplitAnywhere(a: bytes, b: bytes)
    ensures Whole(a + b) == Whole(a) + Whole(Rest(a) + b)
    ensures Rest(a + b) == Rest(Rest(a) + b)
    decreases |a|
  {
    if HasFrame(a) {
      HeadStays(a, b);
      SplitAnywhere(a[FrameLength(a)..], b);
    }
  }

  lemma {:induction false} JoinAppends(parts: seq<bytes>, last: bytes)
    ensures Join(parts + [last]) == Join(parts) + last
  {
    if parts != [] {
      assert (parts + [last])[1..] == parts[1..] + [last];
      JoinAppends(parts[1..], last);
    }
  }

  // ---------------------------------------------------------------- frames as they are sent

  /** A size as four octets, the most significant first, as section 4.2.5.1 of AMQP 0-9-1 has it. */
  function SizeOctets(n: nat): bytes
    requires n < 0x1_0000_0000
  {
    [(n / 0x100_0000) as byte, (n / 0x1_0000 % 0x100) as byte, (n / 0x100 % 0x100) as byte, (n % 0x100) as byte]
  }

  /** A frame as the other side sends it. */
  function Encoded(kind: byte, channel: (byte, byte), payload: bytes): bytes
    requires |payload| < 0x1_0000_0000
  {
    [kind, channel.0, channel.1] + SizeOctets(|payload|) + payload + [206]
  }

  lemma OctetsMakeTheSize(n: nat)
    requires n < 0x1_0000_0000
    ensures var o := SizeOctets(n);
      |o| == 4 && ((o[0] as nat * 256 + o[1] as nat) * 256 + o[2] as nat) * 256 + o[3] as nat == n
  {
  }

  lemma SizeIsRead(n: nat, a: byte, b: byte, c: byte, tail: bytes)
    requires n < 0x1_0000_0000
    ensures PayloadSize([a, b, c] + SizeOctets(n) + tail) == n
  {
    OctetsMakeTheSize(n);
    var frame := [a, b, c] + SizeOctets(n) + tail;
    assert frame[3..7] == SizeOctets(n);
    hide SizeOctets;
    assert frame[3] == SizeOctets(n)[0] && frame[4] == SizeOctets(n)[1];
    assert frame[5] == SizeOctets(n)[2] && frame[6] == SizeOctets(n)[3];
  }

  /** Whatever its payload, a frame that was sent is taken off the buffer whole, and what follows it is left. */
  lemma SentFramesAreTaken(kind: byte, channel: (byte, byte), payload: bytes, tail: bytes)
    requires |payload| < 0x1_0000_0000
    ensures var frame := Encoded(kind, channel, payload);
      && HasFrame(frame + tail) && FrameLength(frame + tail) == |frame|
      && Whole(frame + tail) == [frame] + Whole(tail) && Rest(frame + tail) == Rest(tail)
  {
    var frame := Encoded(kind, channel, payload);
    var b := frame + tail;
    assert b == [kind, channel.0, channel.1] + SizeOctets(|payload|) + (payload + [206] + tail);
    SizeIsRead(|payload|, kind, channel.0, channel.1, payload + [206] + tail);
    hide PayloadSize, SizeOctets;
    assert b[..|frame|] == frame && b[|frame|..] == tail;
  }

  /** No part of it is taken for a frame before it has come as a whole. */
  lemma PartsAreNotTaken(kind: byte, channel: (byte, byte), payload: bytes, n: nat)
    requires |payload| < 0x1_0000_0000 && n < |Encoded(kind, channel, payload)|
    ensures Whole(Encoded(kind, channel, payload)[..n]) == []
  {
    var frame := Encoded(kind, channel, payload);
    SizeIsRead(|payload|, kind, channel.0, channel.1, payload + [206]);
    assert frame == [kind, channel.0, channel.1] + SizeOctets(|payload|) + (payload + [206]);
    if n >= HEADER { assert PayloadSize(frame[..n]) == PayloadSize(frame); }
  }
}

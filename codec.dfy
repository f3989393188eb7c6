/**
 * The server's frame codec (`StompEncoderDecoder`): incoming bytes are
 * collected in a growable buffer until a NUL byte ends the frame; outgoing
 * frames get a NUL appended.  Frames are byte sequences here; the UTF-8
 * conversion between bytes and Java strings is not modelled.
 */
module Codec {
  import opened Wrappers

  newtype byte = x: int | 0 <= x < 256

  const Nul: byte := 0

  /** The buffer's starting size, `1 << 10`. */
  const InitialCapacity := 1024

  /** `encode`: the frame followed by one NUL. */
  function Encoded(message: seq<byte>): seq<byte>
  {
    message + [Nul]
  }

  /** One call of `decodeNextByte` on the bytes collected so far: the new buffer and the result. */
  function Step(buffer: seq<byte>, b: byte): (seq<byte>, Option<seq<byte>>)
  {
    if b == Nul then ([], Some(buffer)) else (buffer + [b], None)
  }

  /** `decodeNextByte` applied to each byte in turn: the final buffer and one result per byte. */
  function Feed(buffer: seq<byte>, input: seq<byte>): (r: (seq<byte>, seq<Option<seq<byte>>>))
    ensures |r.1| == |input|
    decreases |input|
  {
    if input == [] then (buffer, [])
    else
      var (next, out) := Step(buffer, input[0]);
      var (final, outs) := Feed(next, input[1..]);
      (final, [out] + outs)
  }

  /** The completed frames among the results, in order. */
  function Frames(outs: seq<Option<seq<byte>>>): seq<seq<byte>>
  {
    if outs == [] then []
    else (if outs[0].Some? then [outs[0].value] else []) + Frames(outs[1..])
  }

  function EncodedAll(messages: seq<seq<byte>>): seq<byte>
  {
    if messages == [] then [] else Encoded(messages[0]) + EncodedAll(messages[1..])
  }

  /** Bytes other than NUL only accumulate: each yields no frame. */
  lemma {:induction false} FeedWithoutNul(buffer: seq<byte>, input: seq<byte>)
    requires Nul !in input
    ensures Feed(buffer, input).0 == buffer + input
    ensures forall i :: 0 <= i < |input| ==> Feed(buffer, input).1[i].None?
    decreases |input|
  {
    if input != [] {
      FeedWithoutNul(buffer + [input[0]], input[1..]);
      assert buffer + [input[0]] + input[1..] == buffer + input;
    }
  }

  /** Feeding two pieces one after the other is feeding their concatenation. */
  lemma {:induction false} FeedAppend(buffer: seq<byte>, a: seq<byte>, b: seq<byte>)
    ensures Feed(buffer, a + b).0 == Feed(Feed(buffer, a).0, b).0
    ensures Feed(buffer, a + b).1 == Feed(buffer, a).1 + Feed(Feed(buffer, a).0, b).1
    decreases |a|
  {
    if a != [] {
      assert (a + b)[0] == a[0];
      assert (a + b)[1..] == a[1..] + b;
      FeedAppend(Step(buffer, a[0]).0, a[1..], b);
    } else {
      assert a + b == b;
    }
  }

  /**
   * Round trip: from an empty buffer, the bytes of `encode(m)` for a NUL-free
   * `m` give no result until the last one, which gives exactly `m` and leaves
   * the buffer empty.
   */
  lemma RoundTrip(m: seq<byte>)
    requires Nul !in m
    ensures Feed([], Encoded(m)).0 == []
    ensures Feed([], Encoded(m)).1 == Feed([], m).1 + [Some(m)]
    ensures forall i :: 0 <= i < |m| ==> Feed([], Encoded(m)).1[i].None?
  {
    FeedAppend([], m, [Nul]);
    FeedWithoutNul([], m);
    assert [] + m == m;
  }

  lemma {:induction false} FramesAppend(a: seq<Option<seq<byte>>>, b: seq<Option<seq<byte>>>)
    ensures Frames(a + b) == Frames(a) + Frames(b)
  {
    if a != [] {
      assert (a + b)[1..] == a[1..] + b;
      FramesAppend(a[1..], b);
    } else {
      assert a + b == b;
    }
  }

  lemma {:induction false} NoFramesWithoutNul(buffer: seq<byte>, m: seq<byte>)
    requires Nul !in m
    ensures Frames(Feed(buffer, m).1) == []
    decreases |m|
  {
    if m != [] {
      NoFramesWithoutNul(buffer + [m[0]], m[1..]);
    }
  }

  /**
   * Frames do not leak into each other: the encodings of several NUL-free
   * frames, sent back to back, decode to exactly those frames, and the buffer
   * is empty afterwards.
   */
  lemma {:induction false} ConsecutiveFrames(messages: seq<seq<byte>>)
    requires forall i :: 0 <= i < |messages| ==> Nul !in messages[i]
    ensures Feed([], EncodedAll(messages)).0 == []
    ensures Frames(Feed([], EncodedAll(messages)).1) == messages
  {
    if messages != [] {
      var m := messages[0];
      RoundTrip(m);
      FeedAppend([], Encoded(m), EncodedAll(messages[1..]));
      ConsecutiveFrames(messages[1..]);
      FramesAppend(Feed([], Encoded(m)).1, Feed([], EncodedAll(messages[1..])).1);
      FramesAppend(Feed([], m).1, [Some(m)]);
      NoFramesWithoutNul([], m);
      assert Frames([Some(m)]) == [m];
    }
  }

  class StompEncoderDecoder {
    var bytes: array<byte>
    var len: nat

    ghost predicate Valid()
      reads this
    {
      1 <= bytes.Length && len <= bytes.Length
    }

    /** The bytes of the frame collected so far. */
    function Buffered(): seq<byte>
      requires Valid()
      reads this, bytes
    {
      bytes[..len]
    }

    constructor()
      ensures Valid() && Buffered() == [] && bytes.Length == InitialCapacity
    {
      bytes := new byte[InitialCapacity];
      len := 0;
    }

    /** `decodeNextByte`: one decoding step on the collected bytes. */
    method DecodeNextByte(nextByte: byte) returns (r: Option<seq<byte>>)
      requires Valid()
      modifies this, bytes
      ensures Valid()
      ensures (Buffered(), r) == Step(old(Buffered()), nextByte)
    {
      if nextByte == Nul {
        var s := PopString();
        return Some(s);
      }
      PushByte(nextByte);
      return None;
    }

    method Encode(message: seq<byte>) returns (r: seq<byte>)
      ensures r == Encoded(message)
    {
      r := message + [Nul];
    }

    /** `pushByte`: a full buffer is first copied into one of twice the length. */
    method PushByte(nextByte: byte)
      requires Valid()
      modifies this, bytes
      ensures Valid()
      ensures Buffered() == old(Buffered()) + [nextByte]
      ensures old(len) < old(bytes.Length) ==> bytes == old(bytes)
      ensures old(len) >= old(bytes.Length) ==> fresh(bytes) && bytes.Length == 2 * old(len)
    {
      if len >= bytes.Length {
        var larger := new byte[len * 2];
        forall i | 0 <= i < len {
          larger[i] := bytes[i];
        }
        bytes := larger;
      }
      bytes[len] := nextByte;
      len := len + 1;
    }

    /** `popString`: the collected bytes; the buffer starts over empty and keeps its storage. */
    method PopString() returns (r: seq<byte>)
      requires Valid()
      modifies this
      ensures Valid()
      ensures r == old(Buffered()) && Buffered() == [] && bytes == old(bytes)
    {
      r := bytes[..len];
      len := 0;
    }
  }
}

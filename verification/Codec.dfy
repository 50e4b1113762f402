/**
 The length-field frame codec of codec.go: a length field of fixed width, then the message.
 Decoding is defined on byte sequences, proved independent of how the stream is cut into read
 events, and carried out on a connection's inbound side.
 */
module Codec {
  import opened Bytes
  import Inbound

  const MAX_MESSAGE := 10485760   // 10 MB, length field included

  datatype Order = BigEndian | LittleEndian

  datatype Config = Config(order: Order, lengthFieldLength: nat)

  datatype Option<T> = Nil | Some(value: T)

  // ---------------------------------------------------------------------------------------
  // Numbers as bytes
  // ---------------------------------------------------------------------------------------

  function Base(width: nat): (n: nat)
    ensures n > 0
  {
    if width == 0 then 1 else 256 * Base(width - 1)
  }

  /** The low width bytes of v. */
  function ToBytes(order: Order, v: nat, width: nat): (s: seq<byte>)
    ensures |s| == width
  {
    if width == 0 then []
    else if order.LittleEndian? then [(v % 256) as byte] + ToBytes(order, v / 256, width - 1)
    else ToBytes(order, v / 256, width - 1) + [(v % 256) as byte]
  }

  /** The number that bytes stand for. */
  function Value(order: Order, s: seq<byte>): nat {
    if s == [] then 0
    else if order.LittleEndian? then s[0] as nat + 256 * Value(order, s[1..])
    else 256 * Value(order, s[..|s| - 1]) + s[|s| - 1] as nat
  }

  lemma {:induction false} ValueOfBytes(order: Order, v: nat, width: nat)
    ensures Value(order, ToBytes(order, v, width)) == v % Base(width)
  {
    if width == 0 {
    } else {
      var s := ToBytes(order, v / 256, width - 1);
      ValueOfBytes(order, v / 256, width - 1);
      if order.LittleEndian? {
        assert ToBytes(order, v, width)[1..] == s;
      } else {
        assert ToBytes(order, v, width)[..width - 1] == s;
      }
      Digits(v, Base(width - 1));
    }
  }

  lemma Digits(v: nat, b: nat)
    requires b > 0
    ensures v % 256 + 256 * (v / 256 % b) == v % (256 * b)
  {
    var q, r := v / 256 / b, v / 256 % b;
    assert v / 256 == b * q + r;
    assert v == 256 * (b * q + r) + v % 256;
    assert 256 * (b * q) == 256 * b * q;
    Remainder(v, 256 * b, q, 256 * r + v % 256);
  }

  lemma Multiple(d: nat, k: int)
    ensures k >= 1 ==> d * k >= d
    ensures k <= -1 ==> d * k <= 0 - d
  {
    if k >= 1 {
      assert d * k == d + d * (k - 1);
    } else if k <= -1 {
      assert d * k == 0 - d + d * (k + 1);
    }
  }

  lemma Remainder(v: nat, d: nat, q: nat, r: nat)
    requires d > 0 && v == d * q + r && r < d
    ensures v % d == r
  {
    var p := v / d;
    assert v == d * p + v % d;
    assert d * (p - q) == r - v % d;
    Multiple(d, p - q);
  }

  lemma SmallValue(order: Order, v: nat, width: nat)
    ensures v < Base(width) <==> Value(order, ToBytes(order, v, width)) == v
  {
    ValueOfBytes(order, v, width);
    if v < Base(width) {
      Remainder(v, Base(width), 0, v);
    }
  }

  // ---------------------------------------------------------------------------------------
  // Encoding
  // ---------------------------------------------------------------------------------------

  /** The first w bytes are the length field; widths other than 1 to 4 leave it zero. */
  function Header(c: Config, length: nat): (s: seq<byte>)
    ensures |s| == c.lengthFieldLength
  {
    ToBytes(c.order, if 1 <= c.lengthFieldLength <= 4 then length else 0, c.lengthFieldLength)
  }

  function Frame(c: Config, message: seq<byte>): seq<byte> {
    Header(c, |message|) + message
  }

  /** The length fits the field, as far as Encode checks it. */
  predicate Encodable(c: Config, message: seq<byte>) {
    1 <= c.lengthFieldLength <= 3 ==> |message| < Base(c.lengthFieldLength)
  }

  method Encode(c: Config, message: seq<byte>) returns (frame: Option<seq<byte>>)
    ensures frame == if Encodable(c, message) then Some(Frame(c, message)) else Nil
  {
    var length := |message|;
    var offset := c.lengthFieldLength;
    var out := new byte[offset + length](i => 0);
    match offset {
      case 1 =>
        if length >= 256 {
          return Nil;
        }
        out[0] := length as byte;
      case 2 =>
        if length >= 65536 {
          return Nil;
        }
        PutBytes(c.order, length, 2, out);
      case 3 =>
        if length >= 16777216 {
          return Nil;
        }
        PutBytes(c.order, length, 3, out);
      case 4 =>
        PutBytes(c.order, length, 4, out);
      case _ =>
        ZeroBytes(c.order, offset);
    }
    assert Base(1) == 256 && Base(2) == 65536 && Base(3) == 16777216;
    assert out[..offset] == Header(c, length);
    CopyIn(out, offset, message);
    assert out[..] == Frame(c, message);
    frame := Some(out[..]);
  }

  lemma {:induction false} ZeroBytes(order: Order, width: nat)
    ensures forall i :: 0 <= i < width ==> ToBytes(order, 0, width)[i] == 0
  {
    if width > 0 {
      ZeroBytes(order, width - 1);
    }
  }

  /** PutUint16, writeUint24 and PutUint32: byte(v), byte(v >> 8), ... in the given order. */
  method PutBytes(order: Order, v: nat, width: nat, out: array<byte>)
    requires 1 <= width <= out.Length
    modifies out
    ensures out[..width] == ToBytes(order, v, width)
    ensures out[width..] == old(out[width..])
  {
    var rest := v;
    for i := 0 to width
      invariant rest >= 0
      invariant order.LittleEndian? ==> out[..i] + ToBytes(order, rest, width - i) == ToBytes(order, v, width)
      invariant order.BigEndian? ==> ToBytes(order, rest, width - i) + out[width - i..width] == ToBytes(order, v, width)
      invariant out[width..] == old(out[width..])
    {
      ghost var before := out[..];
      var b := (rest % 256) as byte;
      ghost var more := ToBytes(order, rest / 256, width - i - 1);
      if order.LittleEndian? {
        out[i] := b;
        PutLow(before, out[..], i, b, more);
      } else {
        out[width - 1 - i] := b;
        PutHigh(before, out[..], i, width, b, more);
      }
      rest := rest / 256;
    }
  }

  lemma PutLow(before: seq<byte>, after: seq<byte>, i: nat, b: byte, more: seq<byte>)
    requires i < |before| && after == before[i := b]
    ensures before[..i] + ([b] + more) == after[..i + 1] + more
  {
    assert after[..i + 1] == before[..i] + [b];
  }

  lemma PutHigh(before: seq<byte>, after: seq<byte>, i: nat, width: nat, b: byte, more: seq<byte>)
    requires i < width <= |before| && after == before[width - 1 - i := b]
    ensures more + [b] + before[width - i..width] == more + after[width - i - 1..width]
  {
    assert after[width - i - 1..width] == [b] + before[width - i..width];
  }

  // ---------------------------------------------------------------------------------------
  // Decoding
  // ---------------------------------------------------------------------------------------

  /** getFrameLength: widths above 4 read a 32-bit number from the first four bytes. */
  function GetFrameLength(c: Config, s: seq<byte>): nat
    requires 1 <= c.lengthFieldLength <= |s|
  {
    match c.lengthFieldLength
    case 1 => s[0] as nat
    case 2 => Uint16(c.order, s)
    case 3 => ReadUint24(c.order, s)
    case _ => Uint32(c.order, s)
  }

  function Uint16(order: Order, b: seq<byte>): nat
    requires |b| >= 2
  {
    if order.LittleEndian? then b[0] as nat + 256 * b[1] as nat else b[1] as nat + 256 * b[0] as nat
  }

  function ReadUint24(order: Order, b: seq<byte>): nat
    requires |b| >= 3
  {
    if order.LittleEndian? then b[0] as nat + 256 * b[1] as nat + 65536 * b[2] as nat
    else b[2] as nat + 256 * b[1] as nat + 65536 * b[0] as nat
  }

  function Uint32(order: Order, b: seq<byte>): nat
    requires |b| >= 4
  {
    if order.LittleEndian? then
      b[0] as nat + 256 * b[1] as nat + 65536 * b[2] as nat + 16777216 * b[3] as nat
    else
      b[3] as nat + 256 * b[2] as nat + 65536 * b[1] as nat + 16777216 * b[0] as nat
  }

  /** How many bytes of the field getFrameLength looks at. */
  function FieldRead(c: Config): nat {
    Min(c.lengthFieldLength, 4)
  }

  lemma FrameLengthIsValue(c: Config, s: seq<byte>)
    requires 1 <= c.lengthFieldLength <= |s|
    ensures GetFrameLength(c, s) == Value(c.order, s[..FieldRead(c)])
  {
    var w := FieldRead(c);
    if c.order.LittleEndian? {
      LowFirst(s, 0, w);
      if w >= 2 { LowFirst(s, 1, w); }
      if w >= 3 { LowFirst(s, 2, w); }
      if w >= 4 { LowFirst(s, 3, w); }
      assert s[0..w] == s[..w] && s[w..w] == [];
    } else {
      HighFirst(s, w);
      if w >= 2 { HighFirst(s, w - 1); }
      if w >= 3 { HighFirst(s, w - 2); }
      if w >= 4 { HighFirst(s, w - 3); }
    }
  }

  lemma LowFirst(s: seq<byte>, i: nat, w: nat)
    requires i < w <= |s|
    ensures Value(LittleEndian, s[i..w]) == s[i] as nat + 256 * Value(LittleEndian, s[i + 1..w])
  {
    assert s[i..w][1..] == s[i + 1..w];
  }

  lemma HighFirst(s: seq<byte>, w: nat)
    requires 1 <= w <= |s|
    ensures Value(BigEndian, s[..w]) == 256 * Value(BigEndian, s[..w - 1]) + s[w - 1] as nat
  {
    assert s[..w][..w - 1] == s[..w - 1];
  }

  /** The first message of a byte sequence, if it is complete and not too long. */
  function Parse(c: Config, s: seq<byte>): (m: Option<seq<byte>>)
    requires c.lengthFieldLength >= 1
    ensures m.Some? ==> c.lengthFieldLength + |m.value| <= |s|
  {
    var w := c.lengthFieldLength;
    if |s| < w then Nil else
    var n := GetFrameLength(c, s[..w]);
    if n + w >= MAX_MESSAGE || |s| < n + w then Nil else Some(s[w..w + n])
  }

  /** What is left after the first message; everything if there is none. */
  function Remaining(c: Config, s: seq<byte>): seq<byte>
    requires c.lengthFieldLength >= 1
  {
    var m := Parse(c, s);
    if m.Nil? then s else s[c.lengthFieldLength + |m.value|..]
  }

  datatype Decoded = Decoded(messages: seq<seq<byte>>, rest: seq<byte>)

  /** Decoding until nothing more comes. */
  function Drain(c: Config, s: seq<byte>): Decoded
    requires c.lengthFieldLength >= 1
    decreases |s|
  {
    var m := Parse(c, s);
    if m.Nil? then Decoded([], s) else
    var d := Drain(c, Remaining(c, s));
    Decoded([m.value] + d.messages, d.rest)
  }

  /** A complete first message stays the first message, whatever follows it. */
  lemma ParseStable(c: Config, a: seq<byte>, b: seq<byte>)
    requires c.lengthFieldLength >= 1 && Parse(c, a).Some?
    ensures Parse(c, a + b) == Parse(c, a)
  {
    var w := c.lengthFieldLength;
    assert (a + b)[..w] == a[..w];
    var n := GetFrameLength(c, a[..w]);
    assert (a + b)[w..w + n] == a[w..w + n];
  }

  lemma NoneBefore(x: seq<seq<byte>>)
    ensures [] + x == x
  {
  }

  lemma OneBefore(m: seq<byte>, x: seq<seq<byte>>, y: seq<seq<byte>>)
    ensures [m] + (x + y) == [m] + x + y
  {
  }

  /** Decoding in two instalments gives what decoding at once gives, for every byte stream. */
  lemma {:induction false} DrainInstalments(c: Config, a: seq<byte>, b: seq<byte>)
    requires c.lengthFieldLength >= 1
    ensures var d := Drain(c, a); var e := Drain(c, d.rest + b);
      Drain(c, a + b) == Decoded(d.messages + e.messages, e.rest)
    decreases |a|
  {
    var m := Parse(c, a);
    if m.Nil? {
      NoneBefore(Drain(c, a + b).messages);
    } else {
      var k := c.lengthFieldLength + |m.value|;
      ParseStable(c, a, b);
      assert (a + b)[k..] == a[k..] + b;
      assert Remaining(c, a + b) == Remaining(c, a) + b;
      DrainInstalments(c, Remaining(c, a), b);
      var d := Drain(c, Remaining(c, a));
      OneBefore(m.value, d.messages, Drain(c, d.rest + b).messages);
    }
  }

  /** What read events that deliver the given chunks produce, the leftover carried over. */
  function Feed(c: Config, rest: seq<byte>, chunks: seq<seq<byte>>): Decoded
    requires c.lengthFieldLength >= 1
    decreases |chunks|
  {
    if chunks == [] then Decoded([], rest) else
    var d := Drain(c, rest + chunks[0]);
    var e := Feed(c, d.rest, chunks[1..]);
    Decoded(d.messages + e.messages, e.rest)
  }

  /** After a drain nothing more can be decoded. */
  lemma {:induction false} DrainIsComplete(c: Config, s: seq<byte>)
    requires c.lengthFieldLength >= 1
    ensures Parse(c, Drain(c, s).rest).Nil?
    decreases |s|
  {
    var m := Parse(c, s);
    if m.Some? {
      DrainIsComplete(c, Remaining(c, s));
      assert Drain(c, s).rest == Drain(c, Remaining(c, s)).rest;
    }
  }

  lemma FirstChunk(rest: seq<byte>, chunks: seq<seq<byte>>)
    requires chunks != []
    ensures rest + Flatten(chunks) == rest + chunks[0] + Flatten(chunks[1..])
  {
  }

  /** However a stream is cut into read events, the same messages come out and the same bytes wait. */
  lemma {:induction false} ChunkingIsIrrelevant(c: Config, rest: seq<byte>, chunks: seq<seq<byte>>)
    requires c.lengthFieldLength >= 1 && Parse(c, rest).Nil?
    ensures Feed(c, rest, chunks) == Drain(c, rest + Flatten(chunks))
    decreases |chunks|
  {
    if chunks == [] {
      assert rest + Flatten(chunks) == rest;
    } else {
      var now, later := rest + chunks[0], Flatten(chunks[1..]);
      var d := Drain(c, now);
      DrainIsComplete(c, now);
      ChunkingIsIrrelevant(c, d.rest, chunks[1..]);
      DrainInstalments(c, now, later);
      FirstChunk(rest, chunks);
    }
  }

  // ---------------------------------------------------------------------------------------
  // Round trip
  // ---------------------------------------------------------------------------------------

  /** The messages the codec carries: the length fits the field and the frame stays below the cap. */
  predicate Carried(c: Config, message: seq<byte>) {
    && c.lengthFieldLength + |message| < MAX_MESSAGE
    && if c.lengthFieldLength <= 4 then |message| < Base(c.lengthFieldLength) else message == []
  }

  lemma FrameFieldValue(c: Config, message: seq<byte>, tail: seq<byte>)
    requires c.lengthFieldLength >= 1
    ensures var w := c.lengthFieldLength; var s := Frame(c, message) + tail;
      && s[..w] == Header(c, |message|)
      && GetFrameLength(c, s[..w]) == if w <= 4 then |message| % Base(w) else 0
  {
    var w := c.lengthFieldLength;
    var h := Header(c, |message|);
    assert (Frame(c, message) + tail)[..w] == h;
    FrameLengthIsValue(c, h);
    if w <= 4 {
      assert h[..w] == h;
      ValueOfBytes(c.order, |message|, w);
    } else {
      ZeroBytes(c.order, w);
      ZeroBytes(c.order, 4);
      assert h[..4] == ToBytes(c.order, 0, 4);
      ValueOfBytes(c.order, 0, 4);
    }
  }

  /** A frame followed by anything decodes to its message exactly for the messages the codec carries. */
  lemma RoundTrip(c: Config, message: seq<byte>, tail: seq<byte>)
    requires c.lengthFieldLength >= 1
    ensures Parse(c, Frame(c, message) + tail) == Some(message) <==> Carried(c, message)
  {
    var w := c.lengthFieldLength;
    var s := Frame(c, message) + tail;
    FrameFieldValue(c, message, tail);
    if w <= 4 {
      ValueOfBytes(c.order, |message|, w);
      SmallValue(c.order, |message|, w);
    }
    if Carried(c, message) {
      assert s[w..w + |message|] == message;
    }
  }

  /** A message whose frame is not complete yet is not decoded and nothing of it is consumed. */
  lemma IncompleteConsumesNothing(c: Config, message: seq<byte>, k: nat)
    requires c.lengthFieldLength >= 1 && Carried(c, message) && k < |Frame(c, message)|
    ensures Drain(c, Frame(c, message)[..k]) == Decoded([], Frame(c, message)[..k])
  {
    var w := c.lengthFieldLength;
    var f := Frame(c, message);
    FrameFieldValue(c, message, []);
    assert f + [] == f;
    if w <= 4 {
      Remainder(|message|, Base(w), 0, |message|);
    }
    if k >= w {
      assert f[..k][..w] == f[..w];
    }
  }

  /** Encode returns a frame for every message the codec carries. */
  lemma CarriedIsEncoded(c: Config, message: seq<byte>)
    requires Carried(c, message)
    ensures Encodable(c, message)
  {
  }

  /**
   A frame at or over the cap, its length read right: it is never decoded, and neither is anything
   behind it, however much arrives.
   */
  lemma OverCapBlocks(c: Config, message: seq<byte>, tail: seq<byte>)
    requires 1 <= c.lengthFieldLength <= 4 && |message| < Base(c.lengthFieldLength)
    requires c.lengthFieldLength + |message| >= MAX_MESSAGE
    ensures Drain(c, Frame(c, message) + tail) == Decoded([], Frame(c, message) + tail)
  {
    FrameFieldValue(c, message, tail);
    Remainder(|message|, Base(c.lengthFieldLength), 0, |message|);
  }

  function Frames(c: Config, messages: seq<seq<byte>>): seq<byte> {
    if messages == [] then [] else Frame(c, messages[0]) + Frames(c, messages[1..])
  }

  lemma FrameDropped(c: Config, m: seq<byte>, tail: seq<byte>)
    ensures |Frame(c, m)| == c.lengthFieldLength + |m| && (Frame(c, m) + tail)[c.lengthFieldLength + |m|..] == tail
  {
  }

  /** A stream of frames decodes to its messages, with nothing left over. */
  lemma {:induction false} StreamRoundTrip(c: Config, messages: seq<seq<byte>>)
    requires c.lengthFieldLength >= 1 && forall m :: m in messages ==> Carried(c, m)
    ensures Drain(c, Frames(c, messages)) == Decoded(messages, [])
    decreases |messages|
  {
    var s := Frames(c, messages);
    if messages == [] {
      assert Parse(c, s).Nil?;
    } else {
      var m, tail := messages[0], Frames(c, messages[1..]);
      RoundTrip(c, m, tail);
      FrameDropped(c, m, tail);
      StreamRoundTrip(c, messages[1..]);
      assert Remaining(c, s) == tail;
      assert [m] + messages[1..] == messages;
    }
  }

  /** k whole frames and, unless that is all, a proper part of the next one. */
  predicate Partial(c: Config, messages: seq<seq<byte>>, s: seq<byte>, k: nat, rest: seq<byte>) {
    && k <= |messages| && s == Frames(c, messages[..k]) + rest
    && if k == |messages| then rest == [] else rest <= Frame(c, messages[k]) && rest != Frame(c, messages[k])
  }

  lemma NextFrame(c: Config, messages: seq<seq<byte>>, s: seq<byte>, k: nat, rest: seq<byte>)
    requires messages != [] && Partial(c, messages[1..], s, k, rest)
    ensures Partial(c, messages, Frame(c, messages[0]) + s, k + 1, rest)
  {
    assert messages[..k + 1][0] == messages[0] && messages[..k + 1][1..] == messages[1..][..k];
    Assoc(Frame(c, messages[0]), Frames(c, messages[1..][..k]), rest);
  }

  /**
   A stream of frames that is cut off anywhere: the messages decoded are exactly those whose
   frames are complete, in order, and what waits is the part of the next frame.
   */
  lemma {:induction false} CutStream(c: Config, messages: seq<seq<byte>>, s: seq<byte>) returns (k: nat)
    requires c.lengthFieldLength >= 1 && forall m :: m in messages ==> Carried(c, m)
    requires s <= Frames(c, messages)
    ensures k <= |messages| && Drain(c, s).messages == messages[..k] && Partial(c, messages, s, k, Drain(c, s).rest)
    decreases |messages|
  {
    if messages == [] {
      assert Parse(c, s).Nil?;
      return 0;
    }
    var m, f := messages[0], Frame(c, messages[0]);
    if |s| < |f| {
      assert s == f[..|s|];
      IncompleteConsumesNothing(c, m, |s|);
      assert messages[..0] == [] && Frames(c, messages[..0]) + s == s;
      return 0;
    }
    var tail := s[|f|..];
    assert s == f + tail && tail <= Frames(c, messages[1..]);
    k := CutStream(c, messages[1..], tail);
    RoundTrip(c, m, tail);
    FrameDropped(c, m, tail);
    assert Remaining(c, s) == tail;
    NextFrame(c, messages, tail, k, Drain(c, tail).rest);
    assert [m] + messages[1..][..k] == messages[..k + 1];
    k := k + 1;
  }

  /** End to end: encode, send, cut into read events anywhere, decode on each event. */
  lemma EndToEnd(c: Config, messages: seq<seq<byte>>, chunks: seq<seq<byte>>)
    requires c.lengthFieldLength >= 1 && forall m :: m in messages ==> Carried(c, m)
    requires Flatten(chunks) == Frames(c, messages)
    ensures Feed(c, [], chunks) == Decoded(messages, [])
  {
    assert [] + Flatten(chunks) == Flatten(chunks);
    ChunkingIsIrrelevant(c, [], chunks);
    StreamRoundTrip(c, messages);
  }

  // ---------------------------------------------------------------------------------------
  // On a connection
  // ---------------------------------------------------------------------------------------

  /** Without a length field the first four bytes are read as the length of a message that starts with them. */
  function ParseBare(order: Order, s: seq<byte>): (m: Option<seq<byte>>)
    requires |s| >= 4
    ensures m.Some? ==> 0 < |m.value| == Uint32(order, s) < MAX_MESSAGE && m.value <= s
    ensures m.Nil? ==> Uint32(order, s) == 0 || Uint32(order, s) >= MAX_MESSAGE || Uint32(order, s) > |s|
  {
    var n := Uint32(order, s);
    if n == 0 || n >= MAX_MESSAGE || n > |s| then Nil else Some(s[..n])
  }

  /**
   Decode(conn). A field of width 0 makes Peek return everything that is buffered, and the source
   panics exactly if that is less than four bytes.
   */
  method Decode(c: Config, conn: Inbound.Stream) returns (message: Option<seq<byte>>, panics: bool)
    requires conn.Valid()
    modifies conn.Repr
    ensures conn.Valid() && conn.Repr == old(conn.Repr)
    ensures panics <==> c.lengthFieldLength == 0 && |old(conn.Contents())| < 4
    ensures panics ==> message == Nil && conn.Contents() == old(conn.Contents())
    ensures c.lengthFieldLength >= 1 ==>
      message == Parse(c, old(conn.Contents())) && conn.Contents() == Remaining(c, old(conn.Contents()))
    ensures c.lengthFieldLength == 0 && !panics ==>
      message == ParseBare(c.order, old(conn.Contents())) &&
      conn.Contents() == old(conn.Contents())[if message.Nil? then 0 else |message.value|..]
  {
    panics := false;
    ghost var s := conn.Contents();
    var w := c.lengthFieldLength;
    var head, err := conn.Peek(w);
    if err != Inbound.NoError || |head| < w {
      return Nil, false;
    }
    if w == 0 && |head| < 4 {
      return Nil, true;
    }
    var frameLength := if w == 0 then Uint32(c.order, head) else GetFrameLength(c, head);
    if w == 0 {
      TakenIsBare(c.order, s, head);
    } else {
      TakenIsParsed(c, s, head);
    }
    message := TakeMessage(conn, w, frameLength);
  }

  /** Decode, once the length is known */
  method TakeMessage(conn: Inbound.Stream, w: nat, frameLength: nat) returns (message: Option<seq<byte>>)
    requires conn.Valid()
    modifies conn.Repr
    ensures conn.Valid() && conn.Repr == old(conn.Repr)
    ensures (message, conn.Contents()) == Taken(old(conn.Contents()), w, frameLength)
  {
    var msgLength := frameLength + w;
    if msgLength <= 0 || msgLength >= MAX_MESSAGE {
      return Nil;
    }
    var full, err := conn.Peek(msgLength);
    if err != Inbound.NoError || |full| < msgLength {
      return Nil;
    }
    Inner(conn.Contents(), w, msgLength);
    message := Some(full[w..]);
    var _ := conn.Discard(msgLength);
  }

  /** The message behind a field of width w, and what is left, given the length. */
  function Taken(s: seq<byte>, w: nat, frameLength: nat): (Option<seq<byte>>, seq<byte>) {
    var n := frameLength + w;
    if 0 < n < MAX_MESSAGE && n <= |s| then (Some(s[w..n]), s[n..]) else (Nil, s)
  }

  lemma TakenIsParsed(c: Config, s: seq<byte>, head: seq<byte>)
    requires 1 <= c.lengthFieldLength <= |s| && head == s[..c.lengthFieldLength]
    ensures Taken(s, c.lengthFieldLength, GetFrameLength(c, head)) == (Parse(c, s), Remaining(c, s))
  {
  }

  lemma TakenIsBare(order: Order, s: seq<byte>, head: seq<byte>)
    requires |s| >= 4 && head == s[..|s|]
    ensures var m := ParseBare(order, s);
      head == s && Taken(s, 0, Uint32(order, head)) == (m, s[if m.Nil? then 0 else |m.value|..])
  {
    assert head == s;
  }

  lemma Inner(s: seq<byte>, w: nat, n: nat)
    requires w <= n <= |s|
    ensures s[..n][w..] == s[w..n]
  {
  }

  /** Of all, the given messages are decoded and s is still to decode. */
  ghost predicate Progress(c: Config, all: seq<byte>, messages: seq<seq<byte>>, s: seq<byte>)
    requires c.lengthFieldLength >= 1
  {
    Drain(c, all) == Decoded(messages + Drain(c, s).messages, Drain(c, s).rest)
  }

  lemma OneMore(c: Config, all: seq<byte>, messages: seq<seq<byte>>, s: seq<byte>)
    requires c.lengthFieldLength >= 1 && Progress(c, all, messages, s)
    ensures var m := Parse(c, s);
      if m.Nil? then Drain(c, all) == Decoded(messages, s)
      else Progress(c, all, messages + [m.value], Remaining(c, s))
  {
    var m := Parse(c, s);
    if m.Some? {
      var d := Drain(c, Remaining(c, s));
      assert messages + ([m.value] + d.messages) == messages + [m.value] + d.messages;
    }
  }

  /** OnTraffic of an application that decodes until it gets nil. */
  method DecodeAll(c: Config, conn: Inbound.Stream) returns (messages: seq<seq<byte>>)
    requires conn.Valid() && c.lengthFieldLength >= 1
    modifies conn.Repr
    ensures conn.Valid() && conn.Repr == old(conn.Repr)
    ensures Decoded(messages, conn.Contents()) == Drain(c, old(conn.Contents()))
  {
    ghost var all := conn.Contents();
    messages := [];
    NoneBefore(Drain(c, all).messages);
    while true
      invariant conn.Valid() && conn.Repr == old(conn.Repr)
      invariant Progress(c, all, messages, conn.Contents())
      decreases |conn.Contents()|
    {
      ghost var s := conn.Contents();
      var m, _ := Decode(c, conn);
      OneMore(c, all, messages, s);
      if m.Nil? {
        return;
      }
      messages := messages + [m.value];
    }
  }

  /** After i events: the messages so far, and rest still in the connection. */
  ghost predicate Fed(c: Config, chunks: seq<seq<byte>>, i: nat, messages: seq<seq<byte>>, rest: seq<byte>)
    requires c.lengthFieldLength >= 1 && i <= |chunks|
  {
    var e := Feed(c, rest, chunks[i..]);
    Drain(c, Flatten(chunks)) == Decoded(messages + e.messages, e.rest)
  }

  lemma FedFromStart(c: Config, chunks: seq<seq<byte>>)
    requires c.lengthFieldLength >= 1
    ensures Fed(c, chunks, 0, [], [])
  {
    assert [] + Flatten(chunks) == Flatten(chunks) && chunks[0..] == chunks;
    ChunkingIsIrrelevant(c, [], chunks);
    NoneBefore(Feed(c, [], chunks).messages);
  }

  lemma FedOneMore(c: Config, chunks: seq<seq<byte>>, i: nat, messages: seq<seq<byte>>, before: seq<byte>,
                   ms: seq<seq<byte>>, after: seq<byte>)
    requires c.lengthFieldLength >= 1 && i < |chunks| && Fed(c, chunks, i, messages, before)
    requires Decoded(ms, after) == Drain(c, before + chunks[i])
    ensures Fed(c, chunks, i + 1, messages + ms, after)
  {
    assert chunks[i..][0] == chunks[i] && chunks[i..][1..] == chunks[i + 1..];
    var e := Feed(c, after, chunks[i + 1..]);
    assert messages + (ms + e.messages) == messages + ms + e.messages;
  }

  lemma FedToEnd(c: Config, chunks: seq<seq<byte>>, messages: seq<seq<byte>>, rest: seq<byte>)
    requires c.lengthFieldLength >= 1 && Fed(c, chunks, |chunks|, messages, rest)
    ensures Drain(c, Flatten(chunks)) == Decoded(messages, rest)
  {
    assert chunks[|chunks|..] == [];
  }

  /**
   Read events on a real connection: each chunk arrives, the application decodes what it can, the
   leftover is stowed. For every stream and every way of cutting it, the messages are those of
   decoding the whole stream at once, and the leftover is what the connection holds.
   */
  method ServeEvents(c: Config, conn: Inbound.Stream, chunks: seq<seq<byte>>) returns (messages: seq<seq<byte>>)
    requires conn.Valid() && conn.ring.Contents() == [] && c.lengthFieldLength >= 1
    modifies conn.Repr
    ensures conn.Valid() && fresh(conn.Repr - old(conn.Repr))
    ensures Decoded(messages, conn.ring.Contents()) == Drain(c, Flatten(chunks))
  {
    messages := [];
    FedFromStart(c, chunks);
    for i := 0 to |chunks|
      invariant conn.Valid() && fresh(conn.Repr - old(conn.Repr))
      invariant Fed(c, chunks, i, messages, conn.ring.Contents())
    {
      ghost var before := conn.ring.Contents();
      var ms := ServeEvent(c, conn, chunks[i]);
      FedOneMore(c, chunks, i, messages, before, ms, conn.ring.Contents());
      messages := messages + ms;
    }
    FedToEnd(c, chunks, messages, conn.ring.Contents());
  }

  method ServeEvent(c: Config, conn: Inbound.Stream, chunk: seq<byte>) returns (messages: seq<seq<byte>>)
    requires conn.Valid() && c.lengthFieldLength >= 1
    modifies conn.Repr
    ensures conn.Valid() && fresh(conn.Repr - old(conn.Repr))
    ensures Decoded(messages, conn.ring.Contents()) == Drain(c, old(conn.ring.Contents()) + chunk)
  {
    conn.Arrive(chunk);
    messages := DecodeAll(c, conn);
    conn.Stow();
  }

  /** End to end on a real connection. */
  method Receive(c: Config, conn: Inbound.Stream, ghost sent: seq<seq<byte>>, chunks: seq<seq<byte>>) returns (messages: seq<seq<byte>>)
    requires conn.Valid() && conn.ring.Contents() == [] && c.lengthFieldLength >= 1
    requires (forall m :: m in sent ==> Carried(c, m)) && Flatten(chunks) == Frames(c, sent)
    modifies conn.Repr
    ensures conn.Valid() && messages == sent && conn.ring.Contents() == []
  {
    StreamRoundTrip(c, sent);
    messages := ServeEvents(c, conn, chunks);
  }
}

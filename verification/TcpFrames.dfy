/**
 Messages on a TCP stream (src/lib/tcptransport.cc:449-486, 737-811), as values: what a
 message looks like on the wire, and what the reader makes of the bytes it has so far.
 `TcpTransport` has the buffers and loops.
 */
module TcpFrames {

  newtype Byte = b: int | 0 <= b < 256

  type Bytes = seq<Byte>

  const MAGIC: nat := 0x06121983
  /** Magic number, total length, and the two lengths. */
  const HEADER: nat := 28
  const LIMIT: nat := 1073741826

  datatype Message = Message(kind: Bytes, data: Bytes)

  function Power256(w: nat): nat {
    if w == 0 then 1 else 256 * Power256(w - 1)
  }

  /** The `w` low bytes of `n`, little end first. */
  function Encode(n: nat, w: nat): (s: Bytes)
    ensures |s| == w
  {
    if w == 0 then [] else [(n % 256) as Byte] + Encode(n / 256, w - 1)
  }

  function Decode(s: Bytes): nat {
    if s == [] then 0 else s[0] as nat + 256 * Decode(s[1..])
  }

  lemma {:induction false} DecodeEncode(n: nat, w: nat)
    requires n < Power256(w)
    ensures Decode(Encode(n, w)) == n
    decreases w
  {
    if w > 0 {
      DecodeEncode(n / 256, w - 1);
      assert Encode(n, w)[1..] == Encode(n / 256, w - 1);
    }
  }

  lemma Powers()
    ensures Power256(4) == 0x1_0000_0000
    ensures Power256(8) == 0x1_0000_0000_0000_0000
  {
    assert Power256(4) == 256 * Power256(3) && Power256(3) == 256 * Power256(2) && Power256(2) == 256 * Power256(1);
    assert Power256(8) == 256 * Power256(7) && Power256(7) == 256 * Power256(6) && Power256(6) == 256 * Power256(5);
  }

  function TotalLength(m: Message): nat { HEADER + |m.kind| + |m.data| }

  /** The frame that the sender writes. */
  function Frame(m: Message): (s: Bytes)
    ensures |s| == TotalLength(m)
  {
    Encode(MAGIC, 4) + Encode(TotalLength(m), 8) + Encode(|m.kind|, 8) + m.kind + Encode(|m.data|, 8) + m.data
  }

  /** Messages that get through: the sender asserts that something follows the header, the reader limits the size. */
  predicate Sendable(m: Message) { m.data != [] && 28 + |m.kind| + |m.data| < 1073741826 }

  // ---- The reader ----

  datatype Parse = NeedMore | Bad | Got(message: Message, rest: Bytes)

  /** One round of the reader's loop on what it has buffered; `Bad` is a failed assertion. */
  function ParseOne(buf: Bytes): Parse {
    if |buf| < 4 then NeedMore
    else if Decode(buf[..4]) != MAGIC then Bad
    else if |buf| < 12 then NeedMore
    else
      var total := Decode(buf[4..12]);
      if total >= LIMIT then Bad
      else if |buf| < total then NeedMore
      else if total <= 20 then Bad
      else ParseBody(buf[..total], buf[total..])
  }

  /** The body of a frame that has arrived in full; bytes after the data are dropped. */
  function ParseBody(frame: Bytes, rest: Bytes): Parse
    requires |frame| > 20
  {
    var kindLen := Decode(frame[12..20]);
    if 28 + kindLen >= |frame| then Bad
    else
      var dataLen := Decode(frame[20 + kindLen..28 + kindLen]);
      if 28 + kindLen + dataLen > |frame| then Bad
      else Got(Message(frame[20..20 + kindLen], frame[28 + kindLen..28 + kindLen + dataLen]), rest)
  }

  datatype Drained = Drained(messages: seq<Message>, rest: Bytes, ok: bool)

  /** The whole loop: everything that can be dispatched, and what stays buffered. */
  function Drain(buf: Bytes): Drained
    decreases |buf|
  {
    match ParseOne(buf)
    case NeedMore => Drained([], buf, true)
    case Bad => Drained([], buf, false)
    case Got(m, rest) =>
      if |rest| >= |buf| then Drained([], buf, false)
      else var d := Drain(rest); d.(messages := [m] + d.messages)
  }

  // ---- Independence of chunks ----

  lemma ParseExtends(a: Bytes, b: Bytes)
    ensures match ParseOne(a)
      case NeedMore => true
      case Bad => ParseOne(a + b) == Bad
      case Got(m, rest) => ParseOne(a + b) == Got(m, rest + b) && |rest| < |a|
  {
    if |a| >= 4 {
      assert (a + b)[..4] == a[..4];
      if |a| >= 12 {
        assert (a + b)[4..12] == a[4..12];
        var total := Decode(a[4..12]);
        if |a| >= total {
          assert (a + b)[..total] == a[..total];
          assert (a + b)[total..] == a[total..] + b;
        }
      }
    }
  }

  /** Bytes that arrive later change nothing about what has been dispatched. */
  lemma {:induction false} DrainExtends(a: Bytes, b: Bytes)
    ensures var d := Drain(a);
      if d.ok then
        var e := Drain(d.rest + b);
        Drain(a + b) == e.(messages := d.messages + e.messages)
      else !Drain(a + b).ok && Drain(a + b).messages == d.messages
    decreases |a|
  {
    ParseExtends(a, b);
    match ParseOne(a)
    case NeedMore =>
    case Bad =>
    case Got(m, rest) =>
      DrainExtends(rest, b);
      var d, e := Drain(rest), Drain(Drain(rest).rest + b);
      assert [m] + (d.messages + e.messages) == ([m] + d.messages) + e.messages;
  }

  function Concat(chunks: seq<Bytes>): Bytes {
    if chunks == [] then [] else Concat(chunks[..|chunks| - 1]) + chunks[|chunks| - 1]
  }

  /** The reader, called for one chunk after the other; after a failed assertion it is gone. */
  function Feed(chunks: seq<Bytes>): Drained {
    if chunks == [] then Drained([], [], true)
    else
      var d := Feed(chunks[..|chunks| - 1]);
      if !d.ok then d
      else
        var e := Drain(d.rest + chunks[|chunks| - 1]);
        e.(messages := d.messages + e.messages)
  }

  /** However the stream is cut into chunks, the messages dispatched are those of the stream read at once. */
  lemma {:induction false} ChunksDoNotMatter(chunks: seq<Bytes>)
    ensures Feed(chunks).ok == Drain(Concat(chunks)).ok
    ensures Feed(chunks).messages == Drain(Concat(chunks)).messages
    ensures Feed(chunks).ok ==> Feed(chunks).rest == Drain(Concat(chunks)).rest
    decreases |chunks|
  {
    if chunks != [] {
      var before, last := chunks[..|chunks| - 1], chunks[|chunks| - 1];
      ChunksDoNotMatter(before);
      DrainExtends(Concat(before), last);
    }
  }

  // ---- Streams of messages ----

  // The pieces of a frame, whatever they hold.

  lemma FrontPieces(a: Bytes, b: Bytes, c: Bytes, rest: Bytes)
    ensures var s, m, n := a + b + c + rest, |a|, |a| + |b|;
      s[..m] == a && s[m..n] == b && s[n..n + |c|] == c
  {
  }

  lemma BackPieces(front: Bytes, d: Bytes, e: Bytes, f: Bytes)
    ensures var s, m, n := front + d + e + f, |front| + |d|, |front| + |d| + |e|;
      s[|front|..m] == d && s[m..n] == e && s[n..] == f
  {
  }

  lemma Regrouped(a: Bytes, b: Bytes, c: Bytes, d: Bytes, e: Bytes, f: Bytes)
    ensures a + b + c + d + e + f == a + b + c + (d + e + f)
    ensures a + b + c + d + e + f == (a + b + c) + d + e + f
  {
  }

  lemma FramePieces(m: Message)
    ensures var s := Frame(m);
      && s[..4] == Encode(MAGIC, 4) && s[4..12] == Encode(TotalLength(m), 8) && s[12..20] == Encode(|m.kind|, 8)
      && s[20..20 + |m.kind|] == m.kind
      && s[20 + |m.kind|..28 + |m.kind|] == Encode(|m.data|, 8)
      && s[28 + |m.kind|..] == m.data
  {
    var a, b, c, e := Encode(MAGIC, 4), Encode(TotalLength(m), 8), Encode(|m.kind|, 8), Encode(|m.data|, 8);
    hide Encode;
    FrontPieces(a, b, c, m.kind + e + m.data);
    BackPieces(a + b + c, m.kind, e, m.data);
    Regrouped(a, b, c, m.kind, e, m.data);
  }

  /** The magic number, and with it all numbers, go out little end first. */
  lemma FrameBegins(m: Message)
    ensures Frame(m)[..4] == [0x83, 0x19, 0x12, 0x06]
  {
    FramePieces(m);
    FourBytes(MAGIC);
    hide Frame, Encode;
  }

  lemma FourBytes(n: nat)
    ensures Encode(n, 4) ==
      [(n % 256) as Byte, (n / 256 % 256) as Byte, (n / 256 / 256 % 256) as Byte, (n / 256 / 256 / 256 % 256) as Byte]
  {
    var n1, n2, n3 := n / 256, n / 256 / 256, n / 256 / 256 / 256;
    assert Encode(n3, 1) == [(n3 % 256) as Byte] + Encode(n3 / 256, 0);
    assert Encode(n2, 2) == [(n2 % 256) as Byte] + Encode(n3, 1);
    assert Encode(n1, 3) == [(n1 % 256) as Byte] + Encode(n2, 2);
  }

  lemma FrameNumbers(m: Message)
    requires TotalLength(m) < LIMIT
    ensures var s := Frame(m);
      && Decode(s[..4]) == MAGIC && Decode(s[4..12]) == TotalLength(m) && Decode(s[12..20]) == |m.kind|
      && Decode(s[20 + |m.kind|..28 + |m.kind|]) == |m.data|
  {
    FramePieces(m);
    Powers();
    DecodeEncode(MAGIC, 4);
    DecodeEncode(TotalLength(m), 8);
    DecodeEncode(|m.kind|, 8);
    DecodeEncode(|m.data|, 8);
  }

  /** A frame parses back to its message, whatever follows it. */
  lemma FrameParses(m: Message, rest: Bytes)
    requires Sendable(m)
    ensures ParseOne(Frame(m) + rest) == Got(m, rest)
  {
    FramePieces(m);
    hide Frame, Encode;
    assert Frame(m)[28 + |m.kind|..28 + |m.kind| + |m.data|] == m.data;
    IsFrameParses(Frame(m), m, rest);
  }

  /** A proper prefix of a frame is not acted upon. */
  lemma PrefixWaits(m: Message, n: nat)
    requires Sendable(m) && n < TotalLength(m)
    ensures ParseOne(Frame(m)[..n]) == NeedMore
  {
    FrameNumbers(m);
    var s, p := Frame(m), Frame(m)[..n];
    hide Frame, Decode, Encode;
    if n >= 4 {
      assert p[..4] == s[..4];
      if n >= 12 { assert p[4..12] == s[4..12]; }
    }
  }

  function Stream(ms: seq<Message>): Bytes {
    if ms == [] then [] else Frame(ms[0]) + Stream(ms[1..])
  }

  /** How many of the messages lie wholly within the first `n` bytes of their stream. */
  function Whole(ms: seq<Message>, n: nat): (j: nat)
    ensures j <= |ms|
  {
    if ms == [] || n < TotalLength(ms[0]) then 0 else 1 + Whole(ms[1..], n - TotalLength(ms[0]))
  }

  /** What stays buffered once `j` messages are out: a proper prefix of the next frame. */
  predicate Leftover(ms: seq<Message>, j: nat, rest: Bytes)
    requires j <= |ms|
  {
    if j == |ms| then rest == [] else |rest| < TotalLength(ms[j]) && rest == Frame(ms[j])[..|rest|]
  }

  lemma LeftoverLater(ms: seq<Message>, j: nat, rest: Bytes)
    requires ms != [] && j <= |ms| - 1 && Leftover(ms[1..], j, rest)
    ensures Leftover(ms, 1 + j, rest)
  {
    hide Frame;
  }

  lemma StreamCut(ms: seq<Message>, n: nat)
    requires ms != [] && n <= |Stream(ms)|
    ensures var f := Frame(ms[0]);
      if n < |f| then Stream(ms)[..n] == f[..n]
      else n - |f| <= |Stream(ms[1..])| && Stream(ms)[..n] == f + Stream(ms[1..])[..n - |f|]
  {
    hide Frame;
  }

  lemma DrainGot(m: Message, rest: Bytes)
    requires Sendable(m)
    ensures Drain(Frame(m) + rest) == Drain(rest).(messages := [m] + Drain(rest).messages)
  {
    FrameParses(m, rest);
    hide ParseOne, Frame;
  }

  lemma DrainWaits(m: Message, n: nat)
    requires Sendable(m) && n < TotalLength(m)
    ensures Drain(Frame(m)[..n]) == Drained([], Frame(m)[..n], true)
  {
    PrefixWaits(m, n);
    hide ParseOne, Frame;
  }

  ghost predicate Dispatched(ms: seq<Message>, j: nat, d: Drained) {
    d.ok && j <= |ms| && d.messages == ms[..j] && Leftover(ms, j, d.rest)
  }

  /** One more message in front of a stream. */
  lemma DispatchedMore(ms: seq<Message>, j: nat, buf: Bytes, rest: Bytes)
    requires ms != [] && Sendable(ms[0]) && buf == Frame(ms[0]) + rest && Dispatched(ms[1..], j, Drain(rest))
    ensures Dispatched(ms, 1 + j, Drain(buf))
  {
    hide Drain, Frame, Leftover, Sendable;
    DrainGot(ms[0], rest);
    LeftoverLater(ms, j, Drain(rest).rest);
    assert ms[..1 + j] == [ms[0]] + ms[1..][..j];
  }

  lemma DispatchedNone(ms: seq<Message>, n: nat, buf: Bytes)
    requires ms != [] && Sendable(ms[0]) && n < TotalLength(ms[0]) && buf == Frame(ms[0])[..n]
    ensures Dispatched(ms, 0, Drain(buf))
  {
    hide Drain, Frame;
    DrainWaits(ms[0], n);
  }

  lemma NothingDrains()
    ensures Dispatched([], 0, Drain([]))
  {
  }

  /**
   A reader that has had the first `n` bytes of a stream, at once, has dispatched exactly the
   messages that lie within them, in order; what it still buffers is a proper prefix of the next frame.
   */
  lemma {:induction false} StreamDrains(ms: seq<Message>, n: nat)
    requires forall m :: m in ms ==> Sendable(m)
    requires n <= |Stream(ms)|
    ensures Dispatched(ms, Whole(ms, n), Drain(Stream(ms)[..n]))
    decreases |ms|
  {
    hide ParseOne, Frame, Drain, Sendable, Dispatched;
    if ms == [] {
      NothingDrains();
    } else {
      StreamCut(ms, n);
      if n < TotalLength(ms[0]) {
        DispatchedNone(ms, n, Stream(ms)[..n]);
      } else {
        var m := n - TotalLength(ms[0]);
        StreamDrains(ms[1..], m);
        DispatchedMore(ms, Whole(ms[1..], m), Stream(ms)[..n], Stream(ms[1..])[..m]);
      }
    }
  }

  /** The same, however the bytes are cut into chunks. */
  lemma StreamArrives(ms: seq<Message>, chunks: seq<Bytes>)
    requires forall m :: m in ms ==> Sendable(m)
    requires Concat(chunks) <= Stream(ms)
    ensures Dispatched(ms, Whole(ms, |Concat(chunks)|), Feed(chunks))
  {
    ChunksDoNotMatter(chunks);
    StreamDrains(ms, |Concat(chunks)|);
    assert Stream(ms)[..|Concat(chunks)|] == Concat(chunks);
  }

  /** Everything sent is received, and nothing else. */
  lemma StreamRoundTrip(ms: seq<Message>, chunks: seq<Bytes>)
    requires forall m :: m in ms ==> Sendable(m)
    requires Concat(chunks) == Stream(ms)
    ensures Feed(chunks) == Drained(ms, [], true)
  {
    StreamArrives(ms, chunks);
    AllWhole(ms);
    assert ms[..|ms|] == ms;
  }

  lemma {:induction false} AllWhole(ms: seq<Message>)
    ensures Whole(ms, |Stream(ms)|) == |ms|
  {
    if ms != [] { AllWhole(ms[1..]); }
  }

  /** A frame of the limit's size or more is refused by the reader as soon as its length has arrived. */
  lemma TooLongIsRefused(m: Message)
    requires 1073741826 <= TotalLength(m) < 0x1_0000_0000_0000_0000
    ensures ParseOne(Frame(m)[..12]) == Bad
  {
    FramePieces(m);
    Powers();
    DecodeEncode(MAGIC, 4);
    DecodeEncode(TotalLength(m), 8);
    var s, p := Frame(m), Frame(m)[..12];
    assert p[..4] == s[..4] && p[4..12] == s[4..12];
  }

  // ---- Which bytes are accepted ----

  lemma {:induction false} EncodeDecode(s: Bytes)
    ensures Encode(Decode(s), |s|) == s
    ensures Decode(s) < Power256(|s|)
    decreases |s|
  {
    if s != [] {
      var n, d := |s| - 1, Decode(s[1..]);
      EncodeDecode(s[1..]);
      LowByte(s[0], d);
      assert Decode(s) == s[0] as nat + 256 * d;
      assert Encode(Decode(s), n + 1) == [s[0]] + Encode(d, n);
      assert s == [s[0]] + s[1..];
      hide Encode, Decode;
    }
  }

  lemma LowByte(b: Byte, d: nat)
    ensures (b as nat + 256 * d) % 256 == b as nat && (b as nat + 256 * d) / 256 == d
  {
  }

  /** The bytes are a frame of the message, below the limit, maybe with more at their end than the fields account for. */
  predicate IsFrame(s: Bytes, m: Message) {
    var k, d := |m.kind|, |m.data|;
    && 28 + k < |s| < 1073741826 && 28 + k + d <= |s|
    && s[..4] == Encode(MAGIC, 4) && s[4..12] == Encode(|s|, 8) && s[12..20] == Encode(k, 8)
    && s[20..20 + k] == m.kind && s[20 + k..28 + k] == Encode(d, 8) && s[28 + k..28 + k + d] == m.data
  }

  lemma IsFrameParses(s: Bytes, m: Message, rest: Bytes)
    requires IsFrame(s, m)
    ensures ParseOne(s + rest) == Got(m, rest)
  {
    Powers();
    DecodeEncode(MAGIC, 4);
    DecodeEncode(|s|, 8);
    DecodeEncode(|m.kind|, 8);
    DecodeEncode(|m.data|, 8);
    hide Encode, Decode;
    assert ParseBody(s, []) == Got(m, []);
    assert ParseOne(s) == Got(m, []) by { assert s[..|s|] == s && s[|s|..] == []; }
    ParseExtends(s, rest);
    assert [] + rest == rest;
  }

  /** What the fields of a body that is accepted say. */
  lemma BodyFields(frame: Bytes, after: Bytes, m: Message, rest: Bytes)
    requires |frame| > 20 && ParseBody(frame, after) == Got(m, rest)
    ensures rest == after
    ensures var k, d := |m.kind|, |m.data|;
      && 28 + k < |frame| && 28 + k + d <= |frame|
      && Decode(frame[12..20]) == k && frame[20..20 + k] == m.kind
      && Decode(frame[20 + k..28 + k]) == d && frame[28 + k..28 + k + d] == m.data
  {
    hide Decode;
  }

  lemma ParsedIsFrame(buf: Bytes, m: Message, rest: Bytes)
    requires ParseOne(buf) == Got(m, rest)
    ensures |rest| <= |buf| && buf == buf[..|buf| - |rest|] + rest && IsFrame(buf[..|buf| - |rest|], m)
  {
    hide Encode, Decode, ParseBody;
    var total := Decode(buf[4..12]);
    var frame := buf[..total];
    assert frame[..4] == buf[..4] && frame[4..12] == buf[4..12];
    BodyFields(frame, buf[total..], m, rest);
    EncodeDecode(frame[..4]);
    EncodeDecode(frame[4..12]);
    EncodeDecode(frame[12..20]);
    EncodeDecode(frame[20 + |m.kind|..28 + |m.kind|]);
  }

  /**
   The reader dispatches a message exactly if the buffer begins with a frame of it, and then leaves what
   follows the frame.
   */
  lemma ParsesExactly(buf: Bytes, m: Message, rest: Bytes)
    ensures ParseOne(buf) == Got(m, rest) <==> exists frame :: IsFrame(frame, m) && buf == frame + rest
  {
    hide ParseOne, IsFrame;
    if ParseOne(buf) == Got(m, rest) {
      ParsedIsFrame(buf, m, rest);
    } else if frame :| IsFrame(frame, m) && buf == frame + rest {
      IsFrameParses(frame, m, rest);
      assert false;
    }
  }

  /** It waits exactly while what it has may be the beginning of a frame below the limit. */
  lemma WaitsExactly(buf: Bytes)
    ensures ParseOne(buf) == NeedMore <==>
      |buf| < 4 || (Decode(buf[..4]) == 0x06121983 &&
                    (|buf| < 12 || |buf| < Decode(buf[4..12]) < 1073741826))
  {
  }
}

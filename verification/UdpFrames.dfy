/**
 Messages over UDP (src/lib/udptransport.cc:511-554, 593-627, 659-693, 762-816), as values:
 what a message looks like in packets, and what the receiver makes of one packet after
 another. `UdpTransport` has the buffers and loops.
 */
module UdpFrames {
  import opened TcpFrames

  const PLAIN: nat := 0x20050318
  const FRAGMENT: nat := 0x20101010
  const MAX_SIZE: nat := 9000
  const U64: nat := 0x1_0000_0000_0000_0000

  /** A message and the bytes that travel in front of it. */
  datatype Packet = Packet(meta: Bytes, message: Message)

  function BodyLength(p: Packet): nat { 20 + |p.meta| + |p.message.kind| + |p.message.data| }

  /** Everything but the magic number. */
  function Body(p: Packet): (s: Bytes)
    ensures |s| == BodyLength(p)
  {
    Encode(|p.meta|, 4) + p.meta + Encode(|p.message.kind|, 8) + p.message.kind
    + Encode(|p.message.data|, 8) + p.message.data
  }

  /** The lengths fit their fields, and the sender's assertion that something follows the header holds. */
  predicate Fits(p: Packet) {
    p.message.data != [] && |p.meta| < 0x1_0000_0000 && BodyLength(p) < U64
  }

  function PlainPacket(p: Packet): Bytes { Encode(PLAIN, 4) + Body(p) }

  function Chunk(body: Bytes, start: nat): (chunk: Bytes)
    requires start < |body|
    ensures |chunk| == if |body| - start < MAX_SIZE then |body| - start else MAX_SIZE
  {
    if |body| - start < MAX_SIZE then body[start..] else body[start..start + MAX_SIZE]
  }

  function FragmentPacket(id: nat, body: Bytes, start: nat): (s: Bytes)
    requires start < |body|
    ensures |s| == 28 + |Chunk(body, start)|
  {
    Encode(FRAGMENT, 4) + Encode(id, 8) + Encode(start, 8) + Encode(|body|, 8) + Chunk(body, start)
  }

  function Fragments(id: nat, body: Bytes, start: nat): seq<Bytes>
    decreases |body| - start
  {
    if start >= |body| then [] else [FragmentPacket(id, body, start)] + Fragments(id, body, start + MAX_SIZE)
  }

  predicate Fragmented(p: Packet) { 4 + BodyLength(p) > MAX_SIZE }

  /** What the sender puts on the network; `id` is used for fragments only. */
  function Packets(id: nat, p: Packet): seq<Bytes> {
    if Fragmented(p) then Fragments(id, Body(p), 0) else [PlainPacket(p)]
  }

  // ---- The receiver ----

  datatype Decoded = Refused | Decoded(p: Packet)

  /** DecodePacket; `Refused` is a failed assertion. */
  function DecodePacket(s: Bytes): Decoded {
    if |s| < 4 then Refused
    else
      var metaLen := Decode(s[..4]);
      if 12 + metaLen >= |s| then Refused else DecodeRest(s, metaLen)
  }

  function DecodeRest(s: Bytes, metaLen: nat): Decoded
    requires 12 + metaLen < |s|
  {
    var kindLen := Decode(s[4 + metaLen..12 + metaLen]);
    var ptr := 12 + metaLen + kindLen;
    if ptr + 8 >= |s| then Refused
    else
      var dataLen := Decode(s[ptr..ptr + 8]);
      if ptr + 8 + dataLen > |s| then Refused
      else Decoded(Packet(s[4..4 + metaLen], Message(s[12 + metaLen..ptr], s[ptr + 8..ptr + 8 + dataLen])))
  }

  /** What a receiver has of the message that a sender is sending it in fragments; id 0 for none. */
  datatype Partial = Partial(id: nat, data: Bytes)

  const IDLE := Partial(0, [])

  datatype Reaction = Failed | Reaction(partial: Partial, got: seq<Packet>)

  function ReceiveFragment(i: Partial, id: nat, start: nat, length: nat, chunk: Bytes): Reaction {
    if i.id != 0 && id < i.id then Failed
    else
      var j := if i.id == id && id != 0 then i else Partial(id, []);
      if start != |j.data| then Reaction(j, [])
      else if |j.data + chunk| != length then Reaction(Partial(id, j.data + chunk), [])
      else
        match DecodePacket(j.data + chunk)
        case Refused => Failed
        case Decoded(p) => Reaction(IDLE, [p])
  }

  /** ProcessPacket on one packet from the sender that `i` is about; `Failed` is a failed assertion. */
  function Receive(i: Partial, packet: Bytes): Reaction {
    if |packet| <= 4 then Failed
    else if Decode(packet[..4]) == PLAIN then
      match DecodePacket(packet[4..])
      case Refused => Failed
      case Decoded(p) => Reaction(i, [p])
    else if Decode(packet[..4]) == FRAGMENT then
      if |packet| <= 28 then Failed
      else ReceiveHeader(i, Decode(packet[4..12]), Decode(packet[12..20]), Decode(packet[20..28]), packet[28..])
    else Reaction(i, [])
  }

  /** The length of a fragment is asserted to be what its header implies; the subtraction is on 64 bits. */
  function ReceiveHeader(i: Partial, id: nat, start: nat, length: nat, chunk: Bytes): Reaction {
    var left := (length - start) % U64;
    if |chunk| != (if left < MAX_SIZE then left else MAX_SIZE) then Failed
    else ReceiveFragment(i, id, start, length, chunk)
  }

  /** One packet after the other; after a failed assertion the receiver is gone. */
  function Deliver(i: Partial, packets: seq<Bytes>): Reaction
    decreases |packets|
  {
    if packets == [] then Reaction(i, [])
    else
      match Receive(i, packets[0])
      case Failed => Failed
      case Reaction(j, got) =>
        match Deliver(j, packets[1..])
        case Failed => Failed
        case Reaction(k, more) => Reaction(k, got + more)
  }

  // ---- Packets are read as they were written ----

  lemma BodyPieces(p: Packet)
    ensures var s, a, b := Body(p), |p.meta|, |p.message.kind|;
      && s[..4] == Encode(a, 4) && s[4..4 + a] == p.meta && s[4 + a..12 + a] == Encode(b, 8)
      && s[12 + a..12 + a + b] == p.message.kind && s[12 + a + b..20 + a + b] == Encode(|p.message.data|, 8)
      && s[20 + a + b..] == p.message.data
  {
    hide Encode;
  }

  lemma BodyNumbers(p: Packet)
    requires Fits(p)
    ensures var s, a, b := Body(p), |p.meta|, |p.message.kind|;
      && Decode(s[..4]) == a && Decode(s[4 + a..12 + a]) == b
      && Decode(s[12 + a + b..20 + a + b]) == |p.message.data|
  {
    BodyPieces(p);
    Powers();
    DecodeEncode(|p.meta|, 4);
    DecodeEncode(|p.message.kind|, 8);
    DecodeEncode(|p.message.data|, 8);
    hide Body, Decode, Encode;
  }

  /** A body decodes to the packet it was made from. */
  lemma BodyDecodes(p: Packet)
    requires Fits(p)
    ensures DecodePacket(Body(p)) == Decoded(p)
  {
    hide Body, Decode, Encode;
    BodyPieces(p);
    BodyNumbers(p);
    var s, a, b := Body(p), |p.meta|, |p.message.kind|;
    assert s[20 + a + b..20 + a + b + |p.message.data|] == p.message.data;
    assert DecodeRest(s, a) == Decoded(p);
  }

  lemma FragmentPieces(id: nat, body: Bytes, start: nat)
    requires start < |body|
    ensures var s := FragmentPacket(id, body, start);
      && s[..4] == Encode(FRAGMENT, 4) && s[4..12] == Encode(id, 8) && s[12..20] == Encode(start, 8)
      && s[20..28] == Encode(|body|, 8) && s[28..] == Chunk(body, start)
  {
    hide Chunk, Encode;
  }

  lemma FragmentNumbers(id: nat, body: Bytes, start: nat)
    requires id < U64 && start < |body| < U64
    ensures var s := FragmentPacket(id, body, start);
      Decode(s[..4]) == FRAGMENT && Decode(s[4..12]) == id && Decode(s[12..20]) == start && Decode(s[20..28]) == |body|
  {
    hide FragmentPacket, Decode, Encode, Chunk;
    FragmentPieces(id, body, start);
    Powers();
    DecodeEncode(FRAGMENT, 4);
    DecodeEncode(id, 8);
    DecodeEncode(start, 8);
    DecodeEncode(|body|, 8);
  }

  lemma FragmentArrives(i: Partial, id: nat, body: Bytes, start: nat)
    requires id < U64 && start < |body| < U64
    ensures Receive(i, FragmentPacket(id, body, start)) == ReceiveFragment(i, id, start, |body|, Chunk(body, start))
  {
    hide FragmentPacket, Decode, Encode, ReceiveFragment, Chunk;
    FragmentPieces(id, body, start);
    FragmentNumbers(id, body, start);
    assert ReceiveHeader(i, id, start, |body|, Chunk(body, start)) ==
      ReceiveFragment(i, id, start, |body|, Chunk(body, start));
  }

  lemma PlainArrives(i: Partial, p: Packet)
    requires Fits(p)
    ensures Receive(i, PlainPacket(p)) == Reaction(i, [p])
  {
    Powers();
    DecodeEncode(PLAIN, 4);
    BodyDecodes(p);
    assert PlainPacket(p)[..4] == Encode(PLAIN, 4) && PlainPacket(p)[4..] == Body(p);
    hide Body, Decode, Encode, DecodePacket, PlainPacket;
    assert |PlainPacket(p)| == 4 + BodyLength(p) by { PlainLength(p); }
  }

  lemma PlainLength(p: Packet)
    ensures |PlainPacket(p)| == 4 + BodyLength(p)
  {
  }

  /** The magic numbers on the wire, little end first. */
  lemma PacketsBegin(p: Packet, id: nat, body: Bytes, start: nat)
    requires start < |body|
    ensures PlainPacket(p)[..4] == [0x18, 0x03, 0x05, 0x20]
    ensures FragmentPacket(id, body, start)[..4] == [0x10, 0x10, 0x10, 0x20]
  {
    hide Encode, FragmentPacket, PlainPacket;
    MagicBytes();
    PlainBegins(p);
    FragmentPieces(id, body, start);
  }

  lemma MagicBytes()
    ensures Encode(PLAIN, 4) == [0x18, 0x03, 0x05, 0x20] && Encode(FRAGMENT, 4) == [0x10, 0x10, 0x10, 0x20]
  {
    hide Encode;
    FourBytes(PLAIN);
    FourBytes(FRAGMENT);
  }

  lemma PlainBegins(p: Packet)
    ensures PlainPacket(p)[..4] == Encode(PLAIN, 4)
  {
    hide Encode, Body;
  }

  // ---- Round trip ----

  /** The receiver has the first `start` bytes of the body and waits for the rest. */
  predicate Has(i: Partial, id: nat, body: Bytes, start: nat)
    requires start < |body|
  {
    if start == 0 then i.id == 0 || i.id < id else i == Partial(id, body[..start])
  }

  /** The body itself, without what it is made of. */
  lemma ChunkNext(body: Bytes, start: nat)
    requires start < |body|
    ensures body[..start] + Chunk(body, start) == if start + MAX_SIZE < |body| then body[..start + MAX_SIZE] else body
  {
  }

  lemma FragmentTaken(i: Partial, id: nat, body: Bytes, p: Packet, start: nat)
    requires 0 < id < U64 && start < |body| < U64 && Has(i, id, body, start) && DecodePacket(body) == Decoded(p)
    ensures Receive(i, FragmentPacket(id, body, start)) ==
      if start + MAX_SIZE < |body| then Reaction(Partial(id, body[..start + MAX_SIZE]), []) else Reaction(IDLE, [p])
  {
    hide Receive, FragmentPacket, DecodePacket, Chunk;
    FragmentArrives(i, id, body, start);
    ChunkNext(body, start);
  }

  lemma {:induction false} FragmentsRebuild(i: Partial, id: nat, body: Bytes, p: Packet, start: nat)
    requires 0 < id < U64 && start < |body| < U64 && Has(i, id, body, start) && DecodePacket(body) == Decoded(p)
    ensures Deliver(i, Fragments(id, body, start)) == Reaction(IDLE, [p])
    decreases |body| - start
  {
    hide Receive, FragmentPacket, DecodePacket;
    FragmentTaken(i, id, body, p, start);
    var rest := Fragments(id, body, start + MAX_SIZE);
    assert Fragments(id, body, start)[1..] == rest;
    if start + MAX_SIZE < |body| {
      FragmentsRebuild(Partial(id, body[..start + MAX_SIZE]), id, body, p, start + MAX_SIZE);
      assert [] + [p] == [p];
    } else {
      assert [p] + [] == [p];
    }
  }

  /** The packets of a message, in order, make exactly that message, whatever older message has been cut off before. */
  lemma PacketsArrive(i: Partial, id: nat, p: Packet)
    requires Fits(p) && 0 < id < U64 && i.id < id
    ensures Deliver(i, Packets(id, p)) == Reaction(if Fragmented(p) then IDLE else i, [p])
  {
    hide Deliver, Body, PlainPacket;
    if Fragmented(p) {
      BodyDecodes(p);
      FragmentsRebuild(i, id, Body(p), p, 0);
    } else {
      PlainSent(i, id, p);
    }
  }

  lemma {:induction false} DeliverSplits(i: Partial, xs: seq<Bytes>, ys: seq<Bytes>)
    ensures Deliver(i, xs + ys) ==
      match Deliver(i, xs)
      case Failed => Failed
      case Reaction(j, got) =>
        match Deliver(j, ys)
        case Failed => Failed
        case Reaction(k, more) => Reaction(k, got + more)
    decreases |xs|
  {
    hide Receive;
    if xs == [] {
      assert xs + ys == ys;
    } else {
      assert (xs + ys)[1..] == xs[1..] + ys;
      match Receive(i, xs[0])
      case Failed =>
      case Reaction(j, got) =>
        DeliverSplits(j, xs[1..], ys);
        match Deliver(j, xs[1..])
        case Failed =>
        case Reaction(k, more) =>
          match Deliver(k, ys)
          case Failed =>
          case Reaction(_, rest) => assert got + (more + rest) == (got + more) + rest;
    }
  }

  /** What a sender that has used fragment ids up to `last` sends for one message after the other. */
  function SentAll(last: nat, ps: seq<Packet>): seq<Bytes>
    decreases |ps|
  {
    if ps == [] then []
    else
      var id := if Fragmented(ps[0]) then last + 1 else last;
      Packets(id, ps[0]) + SentAll(id, ps[1..])
  }

  /** Every message that is sent is dispatched, once and in order, when no packet is lost or overtaken. */
  lemma {:induction false} SessionRoundTrip(i: Partial, last: nat, ps: seq<Packet>)
    requires forall p :: p in ps ==> Fits(p)
    requires i.id <= last && last + |ps| < U64
    ensures Deliver(i, SentAll(last, ps)).Reaction? && Deliver(i, SentAll(last, ps)).got == ps
    decreases |ps|
  {
    if ps == [] {
      NothingDelivered(i);
    } else {
      hide Deliver, Packets, Fits, Receive;
      var p, id := ps[0], if Fragmented(ps[0]) then last + 1 else last;
      var j := OneSent(i, last, p);
      SessionRoundTrip(j, id, ps[1..]);
      DeliverBoth(i, Packets(id, p), SentAll(id, ps[1..]));
      assert ps == [p] + ps[1..];
    }
  }

  lemma NothingDelivered(i: Partial)
    ensures Deliver(i, []) == Reaction(i, [])
  {
  }

  lemma OneSent(i: Partial, last: nat, p: Packet) returns (j: Partial)
    requires Fits(p) && i.id <= last && last + 1 < U64
    ensures var id := if Fragmented(p) then last + 1 else last;
      Deliver(i, Packets(id, p)) == Reaction(j, [p]) && j.id <= id
  {
    hide Deliver, Packets, Fits, Fragmented;
    if Fragmented(p) {
      PacketsArrive(i, last + 1, p);
      j := IDLE;
    } else {
      PlainSent(i, last, p);
      j := i;
    }
  }

  lemma DeliverBoth(i: Partial, xs: seq<Bytes>, ys: seq<Bytes>)
    requires Deliver(i, xs).Reaction? && Deliver(Deliver(i, xs).partial, ys).Reaction?
    ensures Deliver(i, xs + ys).Reaction?
    ensures Deliver(i, xs + ys).got == Deliver(i, xs).got + Deliver(Deliver(i, xs).partial, ys).got
  {
    hide Deliver;
    DeliverSplits(i, xs, ys);
  }

  lemma PlainSent(i: Partial, id: nat, p: Packet)
    requires Fits(p) && !Fragmented(p)
    ensures Deliver(i, Packets(id, p)) == Reaction(i, [p])
  {
    PlainArrives(i, p);
    hide Receive, PlainPacket;
    assert [p] + [] == [p];
  }

  // ---- Repeated and overtaken fragments of one message ----

  /** The receiver has the first `at` bytes of the message, or nothing of it and of no later one. */
  predicate Gathering(i: Partial, id: nat, body: Bytes, at: nat)
    requires at < |body|
  {
    if at == 0 then i.id < id || i == Partial(id, []) else i == Partial(id, body[..at])
  }

  /** The fragments of a body that begin at these places. */
  function Parts(id: nat, body: Bytes, starts: seq<nat>): seq<Bytes>
    requires forall k :: 0 <= k < |starts| ==> starts[k] < |body|
  {
    if starts == [] then [] else [FragmentPacket(id, body, starts[0])] + Parts(id, body, starts[1..])
  }

  /** From `at` on, all fragments of a body of that length are among these, in order. */
  predicate InOrder(starts: seq<nat>, at: nat, length: nat) {
    at >= length || (starts != [] && InOrder(starts[1..], if starts[0] == at then at + MAX_SIZE else at, length))
  }

  lemma PartTaken(i: Partial, id: nat, body: Bytes, p: Packet, at: nat, start: nat)
    requires 0 < id < U64 && at < |body| < U64 && start < |body| && Gathering(i, id, body, at)
    requires DecodePacket(body) == Decoded(p)
    ensures Receive(i, FragmentPacket(id, body, start)) ==
      if start != at then Reaction(Partial(id, body[..at]), [])
      else if at + MAX_SIZE < |body| then Reaction(Partial(id, body[..at + MAX_SIZE]), [])
      else Reaction(IDLE, [p])
  {
    hide Receive, FragmentPacket, DecodePacket, Chunk;
    FragmentArrives(i, id, body, start);
    if start == at { ChunkNext(body, start); }
  }

  /**
   Whatever is repeated, overtaken or lost of one message: it is put together exactly if all of its fragments
   arrive in order, however many others come between them, and nothing else comes of it.
   */
  lemma {:induction false} RebuiltExactly(i: Partial, id: nat, body: Bytes, p: Packet, at: nat, starts: seq<nat>)
    requires 0 < id < U64 && at < |body| < U64 && Gathering(i, id, body, at) && DecodePacket(body) == Decoded(p)
    requires forall k :: 0 <= k < |starts| ==> starts[k] < |body|
    ensures var o := Deliver(i, Parts(id, body, starts));
      o.Reaction? && (o.got != [] <==> InOrder(starts, at, |body|)) && forall q :: q in o.got ==> q == p
    decreases |starts|
  {
    hide Receive, FragmentPacket, DecodePacket;
    if starts != [] {
      var rest := starts[1..];
      PartTaken(i, id, body, p, at, starts[0]);
      DeliversFirst(i, FragmentPacket(id, body, starts[0]), Parts(id, body, rest));
      hide Deliver;
      if starts[0] != at {
        RebuiltExactly(Partial(id, body[..at]), id, body, p, at, rest);
      } else if at + MAX_SIZE < |body| {
        RebuiltExactly(Partial(id, body[..at + MAX_SIZE]), id, body, p, at + MAX_SIZE, rest);
      } else {
        RebuiltExactly(IDLE, id, body, p, 0, rest);
      }
    }
  }

  /** What has come of a packet, and of those after it. */
  function Followed(o: Reaction, packets: seq<Bytes>): Reaction {
    if o.Failed? || Deliver(o.partial, packets).Failed? then Failed
    else Reaction(Deliver(o.partial, packets).partial, o.got + Deliver(o.partial, packets).got)
  }

  lemma DeliversFirst(i: Partial, packet: Bytes, packets: seq<Bytes>)
    ensures Deliver(i, [packet] + packets) == Followed(Receive(i, packet), packets)
  {
    hide Receive;
    assert ([packet] + packets)[1..] == packets;
  }

  /** A message goes out in one packet if that fits into 9000 bytes, and in as few fragments of 9000 bytes as possible otherwise. */
  lemma FragmentCount(id: nat, p: Packet)
    ensures |Packets(id, p)| == if BodyLength(p) + 4 <= 9000 then 1 else (BodyLength(p) - 1) / 9000 + 1
  {
    if Fragmented(p) { FragmentsFrom(id, Body(p), 0); }
    hide Body;
  }

  lemma {:induction false} FragmentsFrom(id: nat, body: Bytes, start: nat)
    requires start < |body|
    ensures |Fragments(id, body, start)| == (|body| - start - 1) / 9000 + 1
    decreases |body| - start
  {
    hide FragmentPacket;
    if start + MAX_SIZE < |body| { FragmentsFrom(id, body, start + MAX_SIZE); }
  }

  // ---- Loss, duplication and reordering ----

  /** What one sender has sent: messages in fragments, by id, and messages in one packet. */
  datatype Sent = Sent(fragmented: map<nat, Packet>, plain: set<Packet>) {
    predicate Valid() {
      && (forall id :: id in fragmented ==> 0 < id < U64 && Fits(fragmented[id]))
      && (forall p :: p in plain ==> Fits(p))
    }

    predicate IsFragment(packet: Bytes, id: nat, start: nat) {
      id in fragmented && start < BodyLength(fragmented[id]) && packet == FragmentPacket(id, Body(fragmented[id]), start)
    }

    ghost predicate Sends(packet: Bytes) {
      || (exists p :: p in plain && packet == PlainPacket(p))
      || (exists id: nat, start: nat :: IsFragment(packet, id, start))
    }

    function All(): set<Packet> { plain + fragmented.Values }
  }

  /** What has been put together so far is the beginning of a message that was sent. */
  predicate Genuine(sent: Sent, i: Partial) {
    i.id != 0 ==> i.id in sent.fragmented && i.data <= Body(sent.fragmented[i.id])
  }

  /** A fragment brings the receiver down exactly if its message is older than the one being put together. */
  lemma FragmentFails(sent: Sent, i: Partial, id: nat, start: nat)
    requires sent.Valid() && Genuine(sent, i) && id in sent.fragmented && start < BodyLength(sent.fragmented[id])
    ensures Receive(i, FragmentPacket(id, Body(sent.fragmented[id]), start)) == Failed <==> id < i.id
    ensures id >= i.id ==>
      var o := Receive(i, FragmentPacket(id, Body(sent.fragmented[id]), start));
      Genuine(sent, o.partial) && (o.got == [] || o.got == [sent.fragmented[id]])
  {
    hide Body, Receive, FragmentPacket, DecodePacket, BodyLength, Chunk;
    var p := sent.fragmented[id];
    var body := Body(p);
    FragmentArrives(i, id, body, start);
    BodyDecodes(p);
    if id >= i.id {
      var j := if i.id == id && id != 0 then i else Partial(id, []);
      assert j.data <= body;
      if start == |j.data| {
        assert j.data == body[..start];
        ChunkNext(body, start);
      }
    }
  }

  /**
   Whatever is lost, duplicated or overtaken: a receiver that gets through it has dispatched
   only messages that were sent, byte for byte.
   */
  lemma {:induction false} NothingMadeUp(sent: Sent, i: Partial, packets: seq<Bytes>)
    requires sent.Valid() && Genuine(sent, i)
    requires forall p :: p in packets ==> sent.Sends(p)
    ensures var o := Deliver(i, packets);
      o.Reaction? ==> Genuine(sent, o.partial) && forall p :: p in o.got ==> p in sent.All()
    decreases |packets|
  {
    hide Receive, Genuine, Fits, PlainPacket, FragmentPacket, Body, BodyLength;
    if packets != [] {
      var packet := packets[0];
      OneReceived(sent, i, packet);
      match Receive(i, packet)
      case Failed =>
      case Reaction(j, got) => NothingMadeUp(sent, j, packets[1..]);
    }
  }

  lemma OneReceived(sent: Sent, i: Partial, packet: Bytes)
    requires sent.Valid() && Genuine(sent, i) && sent.Sends(packet)
    ensures var o := Receive(i, packet);
      o.Reaction? ==> Genuine(sent, o.partial) && forall p :: p in o.got ==> p in sent.All()
  {
    hide Receive, Genuine, Fits, PlainPacket, FragmentPacket, Body, BodyLength;
    if p :| p in sent.plain && packet == PlainPacket(p) {
      PlainArrives(i, p);
    } else {
      var id: nat, start: nat :| sent.IsFragment(packet, id, start);
      FragmentFails(sent, i, id, start);
    }
  }

  /** Which packets bring a receiver down: fragments of an older message, and nothing else that was sent. */
  lemma FailsExactly(sent: Sent, i: Partial, packet: Bytes)
    requires sent.Valid() && Genuine(sent, i) && sent.Sends(packet)
    ensures Receive(i, packet) == Failed <==> exists id: nat, start: nat :: id < i.id && sent.IsFragment(packet, id, start)
  {
    hide Receive, Genuine, Fits, PlainPacket, FragmentPacket, Body, BodyLength;
    forall id: nat, start: nat | sent.IsFragment(packet, id, start)
      ensures Receive(i, packet) == Failed <==> id < i.id
    {
      FragmentFails(sent, i, id, start);
    }
    if p :| p in sent.plain && packet == PlainPacket(p) { PlainArrives(i, p); }
  }

  // ---- Which bytes are accepted ----

  /** The bytes are the body of a packet, maybe with more at their end than the fields account for. */
  predicate IsBody(s: Bytes, p: Packet) {
    var a, b, d := |p.meta|, |p.message.kind|, |p.message.data|;
    && a < 0x1_0000_0000 && b < U64 && d < U64 && 20 + a + b < |s| && 20 + a + b + d <= |s|
    && s[..4] == Encode(a, 4) && s[4..4 + a] == p.meta && s[4 + a..12 + a] == Encode(b, 8)
    && s[12 + a..12 + a + b] == p.message.kind && s[12 + a + b..20 + a + b] == Encode(d, 8)
    && s[20 + a + b..20 + a + b + d] == p.message.data
  }

  lemma IsBodyDecodes(s: Bytes, p: Packet)
    requires IsBody(s, p)
    ensures DecodePacket(s) == Decoded(p)
  {
    hide Encode, Decode, Power256;
    Powers();
    DecodeEncode(|p.meta|, 4);
    DecodeEncode(|p.message.kind|, 8);
    DecodeEncode(|p.message.data|, 8);
    assert DecodeRest(s, |p.meta|) == Decoded(p);
  }

  lemma DecodedFields(s: Bytes, p: Packet)
    requires DecodePacket(s) == Decoded(p)
    ensures var a, b, d := |p.meta|, |p.message.kind|, |p.message.data|;
      && 20 + a + b < |s| && 20 + a + b + d <= |s|
      && Decode(s[..4]) == a && s[4..4 + a] == p.meta && Decode(s[4 + a..12 + a]) == b
      && s[12 + a..12 + a + b] == p.message.kind && Decode(s[12 + a + b..20 + a + b]) == d
      && s[20 + a + b..20 + a + b + d] == p.message.data
  {
    hide Decode;
  }

  /** A packet or a message put together decodes to `p` exactly if it is a body of `p`. */
  lemma DecodesExactly(s: Bytes, p: Packet)
    ensures DecodePacket(s) == Decoded(p) <==> IsBody(s, p)
  {
    hide DecodePacket, IsBody, Encode, Decode;
    if DecodePacket(s) == Decoded(p) {
      DecodedIsBody(s, p);
    } else if IsBody(s, p) {
      IsBodyDecodes(s, p);
      assert false;
    }
  }

  lemma DecodedIsBody(s: Bytes, p: Packet)
    requires DecodePacket(s) == Decoded(p)
    ensures IsBody(s, p)
  {
    hide DecodePacket, Encode, Decode;
    DecodedFields(s, p);
    var a, b := |p.meta|, |p.message.kind|;
    Powers();
    EncodeDecode(s[..4]);
    EncodeDecode(s[4 + a..12 + a]);
    EncodeDecode(s[12 + a + b..20 + a + b]);
  }

  /** A packet whose magic number says nothing is ignored; one that is no longer than it fails an assertion. */
  lemma OtherPackets(i: Partial, packet: Bytes)
    ensures |packet| <= 4 ==> Receive(i, packet) == Failed
    ensures |packet| > 4 && Decode(packet[..4]) != 0x20050318 && Decode(packet[..4]) != 0x20101010 ==>
      Receive(i, packet) == Reaction(i, [])
  {
    hide Decode;
  }

  /** A message in one packet is dispatched exactly if the rest of the packet is a body of it, and any other rest fails. */
  lemma PlainExactly(i: Partial, packet: Bytes, o: Reaction)
    requires |packet| > 4 && Decode(packet[..4]) == 0x20050318
    ensures Receive(i, packet) == o <==>
      (o == Failed && forall p :: !IsBody(packet[4..], p)) || exists p :: IsBody(packet[4..], p) && o == Reaction(i, [p])
  {
    var d := DecodePacket(packet[4..]);
    hide Decode, DecodePacket, IsBody;
    forall p ensures d == Decoded(p) <==> IsBody(packet[4..], p) { DecodesExactly(packet[4..], p); }
    assert d.Refused? || d == Decoded(d.p);
  }

  /** A fragment is asserted to carry something, and exactly what its header implies. */
  lemma MalformedFragmentFails(i: Partial, packet: Bytes)
    requires |packet| > 4 && Decode(packet[..4]) == 0x20101010
    ensures |packet| <= 28 ==> Receive(i, packet) == Failed
    ensures |packet| > 28 ==>
      var start, length := Decode(packet[12..20]), Decode(packet[20..28]);
      start <= length && length < U64 && |packet| - 28 != (if length - start < 9000 then length - start else 9000) ==>
        Receive(i, packet) == Failed
  {
    hide Decode, ReceiveFragment;
  }

  /** What has been put together is dispatched if it is a body of some message, and fails otherwise. */
  lemma CompletedExactly(i: Partial, id: nat, length: nat, chunk: Bytes, o: Reaction)
    requires i.id == id != 0 && length == |i.data + chunk|
    ensures ReceiveFragment(i, id, |i.data|, length, chunk) == o <==>
      (o == Failed && forall p :: !IsBody(i.data + chunk, p)) || exists p :: IsBody(i.data + chunk, p) && o == Reaction(IDLE, [p])
  {
    var d := DecodePacket(i.data + chunk);
    hide DecodePacket, IsBody;
    forall p ensures d == Decoded(p) <==> IsBody(i.data + chunk, p) { DecodesExactly(i.data + chunk, p); }
    assert d.Refused? || d == Decoded(d.p);
  }
}

/**
 The two ends of a UDP connection with the buffers and loops of the C++ code
 (src/lib/udptransport.cc:511-554, 556-636, 659-693, 744-816).
 */
module UdpTransport {
  import opened TcpFrames
  import opened TcpTransport
  import opened UdpFrames

  datatype Address = Address(host: nat, port: nat)

  /** Writes the message through a moving pointer. `!ok` is the assertion that something is left to write after the header. */
  method SerializeMessage(p: Packet) returns (ok: bool, buf: array<Byte>)
    ensures fresh(buf)
    ensures ok <==> p.message.data != []
    ensures ok ==> buf[..] == PlainPacket(p)
  {
    hide Encode, PlainPacket, Header;
    var metaLen, kindLen, dataLen := |p.meta|, |p.message.kind|, |p.message.data|;
    var totalLen := 24 + metaLen + kindLen + dataLen;
    buf := new Byte[totalLen](_ => 0);
    PutHeader(buf, p.meta, p.message.kind);
    var ptr := 16 + metaLen + kindLen;
    ghost var s := buf[..ptr];
    PutNumber(buf, ptr, dataLen, 8);
    Longer(s, Encode(dataLen, 8), buf[..], ptr);
    ptr := ptr + 8;
    if ptr >= totalLen { return false, buf; }
    s := buf[..ptr];
    PutBytes(buf, ptr, p.message.data);
    Longer(s, p.message.data, buf[..], ptr);
    assert buf[..] == buf[..ptr + dataLen];
    PlainJoins(p);
    ok := true;
  }

  function Header(meta: Bytes, kind: Bytes): Bytes {
    Encode(PLAIN, 4) + Encode(|meta|, 4) + meta + Encode(|kind|, 8) + kind
  }

  /** Everything in front of the data and its length. */
  method PutHeader(buf: array<Byte>, meta: Bytes, kind: Bytes)
    requires 16 + |meta| + |kind| <= buf.Length
    modifies buf
    ensures buf[..16 + |meta| + |kind|] == Header(meta, kind)
  {
    hide Encode;
    PutNumber(buf, 0, PLAIN, 4);
    assert buf[..4] == Encode(PLAIN, 4);
    ghost var s := buf[..4];
    PutNumber(buf, 4, |meta|, 4);
    Longer(s, Encode(|meta|, 4), buf[..], 4);
    s := buf[..8];
    PutBytes(buf, 8, meta);
    Longer(s, meta, buf[..], 8);
    var ptr := 8 + |meta|;
    s := buf[..ptr];
    PutNumber(buf, ptr, |kind|, 8);
    Longer(s, Encode(|kind|, 8), buf[..], ptr);
    ptr := ptr + 8;
    s := buf[..ptr];
    PutBytes(buf, ptr, kind);
    Longer(s, kind, buf[..], ptr);
  }

  lemma PlainJoins(p: Packet)
    ensures PlainPacket(p) == Header(p.meta, p.message.kind) + Encode(|p.message.data|, 8) + p.message.data
  {
    hide Encode;
  }

  /** One fragment: a header and the piece of the body that starts at `start`. */
  method BuildFragment(id: nat, body: Bytes, start: nat) returns (fragBuf: array<Byte>)
    requires start < |body|
    ensures fresh(fragBuf) && fragBuf[..] == FragmentPacket(id, body, start)
  {
    hide Encode;
    var fragLen := if |body| - start < MAX_SIZE then |body| - start else MAX_SIZE;
    var piece := body[start..start + fragLen];
    assert piece == Chunk(body, start);
    fragBuf := new Byte[28 + fragLen](_ => 0);
    PutNumber(fragBuf, 0, FRAGMENT, 4);
    assert fragBuf[..4] == Encode(FRAGMENT, 4);
    ghost var s := fragBuf[..4];
    PutNumber(fragBuf, 4, id, 8);
    Longer(s, Encode(id, 8), fragBuf[..], 4);
    s := fragBuf[..12];
    PutNumber(fragBuf, 12, start, 8);
    Longer(s, Encode(start, 8), fragBuf[..], 12);
    s := fragBuf[..20];
    PutNumber(fragBuf, 20, |body|, 8);
    Longer(s, Encode(|body|, 8), fragBuf[..], 20);
    s := fragBuf[..28];
    PutBytes(fragBuf, 28, piece);
    Longer(s, piece, fragBuf[..], 28);
    assert fragBuf[..] == fragBuf[..28 + fragLen];
  }

  class Transport {
    var lastFragMsgId: nat
    var fragInfo: map<Address, Partial>
    var dispatched: seq<(Address, Packet)>

    constructor ()
      ensures lastFragMsgId == 0 && fragInfo == map[] && dispatched == []
    {
      lastFragMsgId, fragInfo, dispatched := 0, map[], [];
    }

    /** The packets that a message is sent in. `!ok` is a failed assertion. */
    method SendMessage(p: Packet) returns (ok: bool, sent: seq<Bytes>)
      modifies this`lastFragMsgId
      ensures ok <==> p.message.data != []
      ensures lastFragMsgId == old(lastFragMsgId) + if ok && Fragmented(p) then 1 else 0
      ensures ok ==> sent == Packets(lastFragMsgId, p)
    {
      hide Body, Encode, FragmentPacket;
      var buf;
      sent := [];
      ok, buf := SerializeMessage(p);
      if !ok { return; }
      PlainLength(p);
      var msgLen := buf.Length;
      assert msgLen == |buf[..]|;
      if msgLen <= MAX_SIZE { return true, [buf[..]]; }
      msgLen := msgLen - 4;
      var bodyStart := buf[4..];
      assert bodyStart == Body(p);
      lastFragMsgId := lastFragMsgId + 1;
      sent := SendFragments(lastFragMsgId, bodyStart);
    }

    static method SendFragments(msgId: nat, body: Bytes) returns (sent: seq<Bytes>)
      ensures sent == Fragments(msgId, body, 0)
    {
      hide FragmentPacket;
      sent := [];
      var fragStart := 0;
      while fragStart < |body|
        invariant Fragments(msgId, body, 0) == sent + Fragments(msgId, body, fragStart)
        decreases |body| - fragStart
      {
        var fragBuf := BuildFragment(msgId, body, fragStart);
        sent := sent + [fragBuf[..]];
        fragStart := fragStart + MAX_SIZE;
      }
    }

    function InfoOf(a: Address): Partial
      reads this
    {
      if a in fragInfo then fragInfo[a] else IDLE
    }

    /** A packet has arrived from `a`. `!ok` is a failed assertion. */
    method ProcessPacket(a: Address, packet: Bytes) returns (ok: bool)
      modifies this`fragInfo, this`dispatched
      ensures ok <==> Receive(old(InfoOf(a)), packet) != Failed
      ensures ok ==>
        var o := Receive(old(InfoOf(a)), packet);
        && InfoOf(a) == o.partial && (forall b :: b != a ==> InfoOf(b) == old(InfoOf(b)))
        && dispatched == old(dispatched) + if o.got == [] then [] else [(a, o.got[0])]
    {
      hide DecodePacket, Decode;
      if |packet| <= 4 { return false; }
      var magic := Decode(packet[..4]);
      if magic == PLAIN {
        match DecodePacket(packet[4..])
        case Refused => return false;
        case Decoded(p) => dispatched := dispatched + [(a, p)];
      } else if magic == FRAGMENT {
        if |packet| <= 28 { return false; }
        var msgId, fragStart, msgLen := Decode(packet[4..12]), Decode(packet[12..20]), Decode(packet[20..28]);
        var left := (msgLen - fragStart) % U64;
        if |packet| - 28 != (if left < MAX_SIZE then left else MAX_SIZE) { return false; }
        ok := ProcessFragment(a, msgId, fragStart, msgLen, packet[28..]);
        return;
      }
      ok := true;
    }

    method ProcessFragment(a: Address, msgId: nat, fragStart: nat, msgLen: nat, chunk: Bytes) returns (ok: bool)
      modifies this`fragInfo, this`dispatched
      ensures ok <==> ReceiveFragment(old(InfoOf(a)), msgId, fragStart, msgLen, chunk) != Failed
      ensures ok ==>
        var o := ReceiveFragment(old(InfoOf(a)), msgId, fragStart, msgLen, chunk);
        && InfoOf(a) == o.partial && (forall b :: b != a ==> InfoOf(b) == old(InfoOf(b)))
        && dispatched == old(dispatched) + if o.got == [] then [] else [(a, o.got[0])]
    {
      hide DecodePacket;
      var info := InfoOf(a);
      if info.id == 0 { info := Partial(msgId, []); }
      if info.id != msgId {
        if msgId <= info.id { return false; }
        info := Partial(msgId, []);
      }
      fragInfo := fragInfo[a := info];
      if fragStart != |info.data| { return true; }
      info := Partial(msgId, info.data + chunk);
      fragInfo := fragInfo[a := info];
      if |info.data| == msgLen {
        match DecodePacket(info.data)
        case Refused => return false;
        case Decoded(p) =>
          fragInfo := fragInfo[a := IDLE];
          dispatched := dispatched + [(a, p)];
      }
      ok := true;
    }
  }
}

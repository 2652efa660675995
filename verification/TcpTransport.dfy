/**
 The two ends of a TCP connection with the buffers of the C++ code
 (src/lib/tcptransport.cc:449-486, 737-811): a frame written through a moving pointer, and
 a loop that consumes the input buffer.
 */
module TcpTransport {
  import opened TcpFrames

  /** Writes the `w` low bytes of `n` at `at`. */
  method PutNumber(buf: array<Byte>, at: nat, n: nat, w: nat)
    requires at + w <= buf.Length
    modifies buf
    ensures buf[..at] == old(buf[..at]) && buf[at..at + w] == Encode(n, w) && buf[at + w..] == old(buf[at + w..])
  {
    var i, left := 0, n;
    while i < w
      invariant 0 <= i <= w
      invariant buf[..at] == old(buf[..at]) && buf[at + w..] == old(buf[at + w..])
      invariant Encode(n, w) == buf[at..at + i] + Encode(left, w - i)
    {
      buf[at + i] := (left % 256) as Byte;
      left := left / 256;
      i := i + 1;
    }
    assert buf[at..at + w] == Encode(n, w);
  }

  /** memcpy */
  method PutBytes(buf: array<Byte>, at: nat, s: Bytes)
    requires at + |s| <= buf.Length
    modifies buf
    ensures buf[..at] == old(buf[..at]) && buf[at..at + |s|] == s && buf[at + |s|..] == old(buf[at + |s|..])
  {
    var i := 0;
    while i < |s|
      invariant 0 <= i <= |s|
      invariant buf[..at] == old(buf[..at]) && buf[at + |s|..] == old(buf[at + |s|..])
      invariant buf[at..at + i] == s[..i]
    {
      buf[at + i] := s[i];
      i := i + 1;
    }
  }

  lemma Longer(before: Bytes, piece: Bytes, after: Bytes, at: nat)
    requires at + |piece| <= |after| && |before| == at
    requires after[..at] == before && after[at..at + |piece|] == piece
    ensures after[..at + |piece|] == before + piece
  {
    assert after[..at + |piece|] == after[..at] + after[at..at + |piece|];
  }

  /** Builds the frame. `!ok` is the assertion that something is left to write after the header. */
  method BuildFrame(m: Message) returns (ok: bool, buf: array<Byte>)
    ensures fresh(buf)
    ensures ok <==> m.data != []
    ensures ok ==> buf[..] == Frame(m)
  {
    var kindLen, dataLen := |m.kind|, |m.data|;
    var totalLen := HEADER + kindLen + dataLen;
    buf := new Byte[totalLen](_ => 0);
    PutNumber(buf, 0, MAGIC, 4);
    assert buf[..4] == Encode(MAGIC, 4);
    ghost var s := buf[..4];
    PutNumber(buf, 4, totalLen, 8);
    Longer(s, Encode(totalLen, 8), buf[..], 4);
    s := buf[..12];
    PutNumber(buf, 12, kindLen, 8);
    Longer(s, Encode(kindLen, 8), buf[..], 12);
    s := buf[..20];
    PutBytes(buf, 20, m.kind);
    Longer(s, m.kind, buf[..], 20);
    var ptr := 20 + kindLen;
    s := buf[..ptr];
    PutNumber(buf, ptr, dataLen, 8);
    Longer(s, Encode(dataLen, 8), buf[..], ptr);
    ptr := ptr + 8;
    if ptr >= totalLen { return false, buf; }
    s := buf[..ptr];
    PutBytes(buf, ptr, m.data);
    Longer(s, m.data, buf[..], ptr);
    assert buf[..] == buf[..ptr + dataLen];
    ok := true;
  }

  class Reader {
    var evbuf: Bytes
    var dispatched: seq<Message>

    constructor ()
      ensures evbuf == [] && dispatched == []
    {
      evbuf, dispatched := [], [];
    }

    /** The body of a frame taken out of the buffer. `!ok` is a failed assertion. */
    method ParseFrame(frame: Bytes) returns (ok: bool, m: Message)
      requires |frame| > 20
      ensures ParseBody(frame, []) == if ok then Got(m, []) else Bad
    {
      m := Message([], []);
      var kindLen := Decode(frame[12..20]);
      var ptr := 20 + kindLen;
      if ptr >= |frame| { return false, m; }
      if ptr + 8 >= |frame| { return false, m; }
      var dataLen := Decode(frame[ptr..ptr + 8]);
      if ptr + 8 + dataLen > |frame| { return false, m; }
      return true, Message(frame[20..ptr], frame[ptr + 8..ptr + 8 + dataLen]);
    }

    /** A chunk has arrived. `!ok` is a failed assertion. */
    method TCPReadableCallback(chunk: Bytes) returns (ok: bool)
      modifies this
      ensures var d := Drain(old(evbuf) + chunk);
        ok == d.ok && dispatched == old(dispatched) + d.messages && (ok ==> evbuf == d.rest)
    {
      evbuf := evbuf + chunk;
      ghost var all, sent := evbuf, [];
      while |evbuf| > 0
        invariant dispatched == old(dispatched) + sent
        invariant Drain(all) == Drain(evbuf).(messages := sent + Drain(evbuf).messages)
        decreases |evbuf|
      {
        if |evbuf| < 4 { return true; }
        if Decode(evbuf[..4]) != MAGIC { return false; }
        if |evbuf| < 12 { return true; }
        var total := Decode(evbuf[4..12]);
        if total >= LIMIT { return false; }
        if |evbuf| < total { return true; }
        if total <= 20 { return false; }
        var frame := evbuf[..total];
        var fine, m := ParseFrame(frame);
        if !fine { return false; }
        assert ParseOne(evbuf) == Got(m, evbuf[total..]);
        evbuf := evbuf[total..];
        dispatched := dispatched + [m];
        ghost var before := sent;
        sent := sent + [m];
        assert before + ([m] + Drain(evbuf).messages) == sent + Drain(evbuf).messages;
      }
      ok := true;
    }
  }
}

/** core/transport/frame.go, step by step on a connection. */
module FrameIO {
  import opened Bytes
  import opened Crypto
  import opened Frame

  /** A net.Conn: what the peer will still deliver, what was put on the wire, and how many more bytes the
      network takes before the connection breaks for good. */
  class Conn {
    var incoming: Bytes
    var sent: Bytes
    var budget: nat
    var down: bool

    constructor (incoming: Bytes, budget: nat)
      ensures this.incoming == incoming && this.budget == budget && sent == [] && !down
    {
      this.incoming, this.budget, this.sent, this.down := incoming, budget, [], false;
    }

    /** How many of the next n bytes still reach the wire. */
    ghost function Room(n: nat): (r: nat)
      reads this
      ensures r <= n
    {
      if down then 0 else if n <= budget then n else budget
    }

    method Write(b: Bytes) returns (ok: bool)
      modifies `sent, `budget, `down
      ensures ok == (!old(down) && |b| <= old(budget))
      ensures sent == old(sent) + b[..old(Room(|b|))]
      ensures budget == old(budget) - old(Room(|b|)) && down == !ok
    {
      ok := !down && |b| <= budget;
      if ok {
        sent, budget := sent + b, budget - |b|;
      } else if !down {
        sent, budget, down := sent + b[..budget], 0, true;
      }
    }

    /** io.ReadFull */
    method ReadFull(n: nat) returns (b: Bytes, ok: bool)
      modifies `incoming
      ensures ok == (n <= |old(incoming)|)
      ensures ok ==> b == old(incoming)[..n] && incoming == old(incoming)[n..]
      ensures !ok ==> incoming == []
    {
      ok := n <= |incoming|;
      if ok {
        b, incoming := incoming[..n], incoming[n..];
      } else {
        b, incoming := [], [];
      }
    }
  }

  /** header := make([]byte, 12), filled field by field. */
  method BuildHeader(f: Frame, n: Noise) returns (header: array<byte>)
    requires ValidNoise(n)
    ensures fresh(header) && header[..] == Header(f, n)
  {
    header := new byte[12](_ => 0);
    PutBE(header, 0, 4, MAGIC);
    header[4] := f.kind;
    PutBE(header, 5, 4, f.id);
    PutBE(header, 9, 2, |f.payload|);
    header[11] := |n.padding| % 256;
  }

  /** body := make([]byte, payloadLen+padLen): the payload, then the padding. */
  method BuildBody(f: Frame, n: Noise) returns (body: array<byte>)
    ensures fresh(body) && body[..] == f.payload + n.padding
  {
    body := new byte[|f.payload| + |n.padding|];
    forall i | 0 <= i < |f.payload| { body[i] := f.payload[i]; }
    forall i | 0 <= i < |n.padding| { body[|f.payload| + i] := n.padding[i]; }
  }

  /** Three writes in a row, each only after the one before it succeeded. */
  method WriteParts(conn: Conn, h: Bytes, l: Bytes, b: Bytes) returns (ok: bool)
    modifies conn`sent, conn`budget, conn`down
    ensures ok == (!old(conn.down) && |h + l + b| <= old(conn.budget))
    ensures conn.sent == old(conn.sent) + (h + l + b)[..old(conn.Room(|h + l + b|))]
    ensures conn.down == !ok
    ensures conn.budget == old(conn.budget) - old(conn.Room(|h + l + b|))
  {
    ghost var before, room := conn.sent, conn.Room(|h + l + b|);
    ok := conn.Write(h);
    if !ok {
      assert (h + l + b)[..room] == h[..room];
      return;
    }
    ok := conn.Write(l);
    if !ok {
      assert (h + l + b)[..room] == h + l[..room - |h|];
      return;
    }
    ok := conn.Write(b);
    assert (h + l + b)[..room] == h + l + b[..room - |h| - |l|];
  }

  /** Either the whole frame reaches the wire, or the connection is broken after a strict prefix of it. */
  method WriteFrame(conn: Conn, c: Aead, f: Frame, n: Noise) returns (ok: bool)
    requires ValidNoise(n) && |Body(c, f, n)| < 0x1_0000_0000
    modifies conn`sent, conn`budget, conn`down
    ensures ok == (!old(conn.down) && |Encode(c, f, n)| <= old(conn.budget))
    ensures conn.sent == old(conn.sent) + Encode(c, f, n)[..old(conn.Room(|Encode(c, f, n)|))]
    ensures conn.down == !ok
    ensures conn.budget == old(conn.budget) - old(conn.Room(|Encode(c, f, n)|))
  {
    var body := BuildBody(f, n);
    var encryptedBody := Encrypt(c, n.nonce, body[..]);
    var header := BuildHeader(f, n);
    var encLenBuf := new byte[4](_ => 0);
    PutBE(encLenBuf, 0, 4, |encryptedBody|);
    assert encLenBuf[..] == ToBE(|encryptedBody|, 4);
    ok := WriteParts(conn, header[..], encLenBuf[..], encryptedBody);
  }

  method ReadFrame(conn: Conn, c: Aead) returns (r: ParseResult)
    modifies conn`incoming
    ensures r.Failed? == Parse(c, old(conn.incoming)).Failed?
    ensures r.Failed? ==> r == Parse(c, old(conn.incoming))
    ensures r.Parsed? ==> r == Parse(c, old(conn.incoming)) && conn.incoming == r.rest
  {
    ghost var all := conn.incoming;
    var header, ok := conn.ReadFull(HEADER_SIZE);
    if !ok { return Failed(UnexpectedEof); }
    assert header[0..4] == all[0..4];
    var magic := FromBE(header[0..4]);
    if magic != MAGIC { return Failed(BadMagic); }
    FromBEBound4(header[5..9]);
    var frameType, streamID, payloadLen, padLen := header[4], FromBE(header[5..9]), FromBE(header[9..11]), header[11];
    var encLenBuf;
    encLenBuf, ok := conn.ReadFull(4);
    if !ok { return Failed(UnexpectedEof); }
    assert encLenBuf == all[12..16];
    var encLen := FromBE(encLenBuf);
    if encLen > MAX_ENCRYPTED { return Failed(TooLong); }
    var encryptedBody;
    encryptedBody, ok := conn.ReadFull(encLen);
    if !ok { return Failed(UnexpectedEof); }
    assert encryptedBody == all[16..16 + encLen];
    assert conn.incoming == all[16 + encLen..];
    var body := Decrypt(c, encryptedBody);
    if body.None? { return Failed(BadCiphertext); }
    if |body.value| < payloadLen + padLen { return Failed(BodyTooShort); }
    r := Parsed(Frame(frameType, streamID, body.value[..payloadLen]), conn.incoming);
  }
}

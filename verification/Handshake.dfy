/** core/transport/stealth.go: one frame each way before the session starts. */
module Handshake {
  import opened Bytes
  import opened Crypto
  import opened Wrappers
  import opened Frame
  import FrameIO

  /** "HWL_HS:" */
  const GREETING: Bytes := [72, 87, 76, 95, 72, 83, 58]
  const OK_BYTES: Bytes := [79, 75]

  function HelloFrame(token: Bytes): Frame {
    Frame(HANDSHAKE, 0, GREETING + token)
  }

  function AckFrame(): Frame {
    Frame(HANDSHAKE_ACK, 0, OK_BYTES)
  }

  datatype Outcome = Done | WriteFailed | ReadFailed(error: FrameError) | Rejected

  /** What the client makes of the bytes that come back. */
  function ClientVerdict(r: ParseResult): Outcome {
    match r
    case Failed(error) => ReadFailed(error)
    case Parsed(f, _) => if f.kind != HANDSHAKE_ACK then Rejected else Done
  }

  /** What the server makes of the first bytes of a connection, before it answers. */
  function ServerVerdict(r: ParseResult, token: Bytes): Outcome {
    match r
    case Failed(error) => ReadFailed(error)
    case Parsed(f, _) => if f.kind != HANDSHAKE || f.payload != GREETING + token then Rejected else Done
  }

  method PerformClientHandshake(conn: FrameIO.Conn, c: Aead, token: Bytes, noise: Noise) returns (r: Outcome)
    requires ValidNoise(noise) && |Body(c, HelloFrame(token), noise)| < 0x1_0000_0000
    modifies conn
    ensures var hello := Encode(c, HelloFrame(token), noise); var reply := Parse(c, old(conn.incoming));
      && conn.sent == old(conn.sent) + hello[..old(conn.Room(|hello|))]
      && r == (if old(conn.Room(|hello|)) < |hello| then WriteFailed else ClientVerdict(reply))
      && (r.Done? ==> conn.incoming == reply.rest)
  {
    var ok := FrameIO.WriteFrame(conn, c, HelloFrame(token), noise);
    if !ok { return WriteFailed; }
    var reply := FrameIO.ReadFrame(conn, c);
    if reply.Failed? { return ReadFailed(reply.error); }
    if reply.frame.kind != HANDSHAKE_ACK { return Rejected; }
    r := Done;
  }

  method PerformServerHandshake(conn: FrameIO.Conn, c: Aead, expectedToken: Bytes, noise: Noise) returns (r: Outcome)
    requires ValidNoise(noise) && |Body(c, AckFrame(), noise)| < 0x1_0000_0000
    modifies conn
    ensures var ack := Encode(c, AckFrame(), noise); var hello := Parse(c, old(conn.incoming));
      var verdict := ServerVerdict(hello, expectedToken);
      && conn.sent == old(conn.sent) + (if verdict.Done? then ack[..old(conn.Room(|ack|))] else [])
      && r == (if verdict.Done? && old(conn.Room(|ack|)) < |ack| then WriteFailed else verdict)
      && (verdict.Done? ==> conn.incoming == hello.rest)
  {
    var hello := FrameIO.ReadFrame(conn, c);
    if hello.Failed? { return ReadFailed(hello.error); }
    var expectedPayload := GREETING + expectedToken;
    if hello.frame.kind != HANDSHAKE || hello.frame.payload != expectedPayload { return Rejected; }
    var ok := FrameIO.WriteFrame(conn, c, AckFrame(), noise);
    r := if ok then Done else WriteFailed;
  }

  /** With the same token on both sides the handshake succeeds, for any padding and any nonces, if and only if
      the greeting fits the size limit; each side then consumes exactly one frame of the other. */
  lemma HandshakeAligns(c: Aead, token: Bytes, clientNoise: Noise, serverNoise: Noise, fromClient: Bytes,
                        fromServer: Bytes)
    requires Correct(c) && ValidNoise(clientNoise) && ValidNoise(serverNoise) && Representable(HelloFrame(token))
    ensures var atServer := Parse(c, Encode(c, HelloFrame(token), clientNoise) + fromClient);
      && (ServerVerdict(atServer, token) == Done <==> Fits(HelloFrame(token), clientNoise))
      && (ServerVerdict(atServer, token) == Done ==> atServer.rest == fromClient)
    ensures var atClient := Parse(c, Encode(c, AckFrame(), serverNoise) + fromServer);
      ClientVerdict(atClient) == Done && atClient.rest == fromServer
  {
    EncodeParse(c, HelloFrame(token), clientNoise, fromClient);
    EncodeParse(c, AckFrame(), serverNoise, fromServer);
  }

  /** What the server says to a client with any token, where c is the cipher of the client's token and d that of its
      own: a greeting that does not fit is too long, one of the same token is accepted, and one of another token cannot
      be decrypted. */
  lemma WrongTokenRejected(c: Aead, token: Bytes, d: Aead, expected: Bytes, noise: Noise, rest: Bytes)
    requires Correct(c) && (if token == expected then d == c else Rejects(d, c))
    requires ValidNoise(noise) && Representable(HelloFrame(token))
    ensures ServerVerdict(Parse(d, Encode(c, HelloFrame(token), noise) + rest), expected) ==
      if !Fits(HelloFrame(token), noise) then ReadFailed(TooLong)
      else if token == expected then Done
      else ReadFailed(BadCiphertext)
  {
    EncodeParse(c, HelloFrame(token), noise, rest);
    if token != expected {
      RejectedParse(c, d, HelloFrame(token), noise, rest);
    }
  }

  lemma RejectedParse(c: Aead, d: Aead, f: Frame, n: Noise, rest: Bytes)
    requires Correct(c) && Rejects(d, c) && ValidNoise(n) && Representable(f)
    ensures Parse(d, Encode(c, f, n) + rest) == Failed(if Fits(f, n) then BadCiphertext else TooLong)
  {
    var body := Body(c, f, n);
    DecryptEncrypt(c, n.nonce, f.payload + n.padding);
    DecryptRejects(d, c, n.nonce, f.payload + n.padding);
    Layout(c, f, n, rest);
    Pow256Values();
    BERoundTrip(MAGIC, 4);
    BERoundTrip(|body|, 4);
  }

  /** Should the same key serve both tokens, the greeting itself tells them apart. */
  lemma GreetingNamesToken(c: Aead, token: Bytes, expected: Bytes, noise: Noise, rest: Bytes)
    requires Correct(c) && ValidNoise(noise) && Fits(HelloFrame(token), noise)
    ensures ServerVerdict(Parse(c, Encode(c, HelloFrame(token), noise) + rest), expected) ==
      if token == expected then Done else Rejected
  {
    EncodeParse(c, HelloFrame(token), noise, rest);
    assert (GREETING + token)[|GREETING|..] == token && (GREETING + expected)[|GREETING|..] == expected;
  }

  // ---- The verdicts, byte by byte ----

  /** A stream that holds this frame in front, sealed with the key of c. */
  ghost predicate Holds(c: Aead, b: Bytes, f: Frame) {
    exists pad: byte, body: Bytes, rest: Bytes :: LaidOut(b, f, pad, body, rest) && Opens(c, f, pad, body)
  }

  lemma HoldsIff(c: Aead, b: Bytes, f: Frame)
    ensures Holds(c, b, f) <==> Parse(c, b).Parsed? && Parse(c, b).frame == f
  {
    hide Parse, LaidOut, Opens;
    if Parse(c, b).Parsed? {
      ParsedIff(c, b, Parse(c, b).frame, Parse(c, b).rest);
    }
    if Holds(c, b, f) {
      var pad: byte, body: Bytes, rest: Bytes :| LaidOut(b, f, pad, body, rest) && Opens(c, f, pad, body);
      ParsedIff(c, b, f, rest);
    }
  }

  /** The server accepts exactly the streams that start with a frame of kind 1, on any ID, whose payload is "HWL_HS:"
      and its token; and what does not start with "HWL1" is no frame at all. */
  lemma ServerAcceptsIff(c: Aead, b: Bytes, token: Bytes)
    ensures ServerVerdict(Parse(c, b), token) == Done
       <==> exists id: uint32 :: Holds(c, b, Frame(1, id, [72, 87, 76, 95, 72, 83, 58] + token))
    ensures |b| >= 12 && b[..4] != [0x48, 0x57, 0x4C, 0x31] ==>
      ServerVerdict(Parse(c, b), token) == ReadFailed(BadMagic)
  {
    hide Parse, Holds;
    ParseFails(c, b);
    forall id: uint32 {
      HoldsIff(c, b, Frame(1, id, [72, 87, 76, 95, 72, 83, 58] + token));
    }
    if ServerVerdict(Parse(c, b), token) == Done {
      assert Holds(c, b, Frame(1, Parse(c, b).frame.id, [72, 87, 76, 95, 72, 83, 58] + token));
    }
  }

  /** The client accepts exactly those that start with a frame of kind 2, whatever else is in it. */
  lemma ClientAcceptsIff(c: Aead, b: Bytes)
    ensures ClientVerdict(Parse(c, b)) == Done <==> exists f: Frame :: f.kind == 2 && Holds(c, b, f)
    ensures Parse(c, b).Parsed? && Parse(c, b).frame.kind != 2 ==> ClientVerdict(Parse(c, b)) == Rejected
    ensures |b| >= 12 && b[..4] != [0x48, 0x57, 0x4C, 0x31] ==> ClientVerdict(Parse(c, b)) == ReadFailed(BadMagic)
  {
    hide Parse, Holds;
    ParseFails(c, b);
    forall f: Frame {
      HoldsIff(c, b, f);
    }
    if ClientVerdict(Parse(c, b)) == Done {
      assert Holds(c, b, Parse(c, b).frame);
    }
  }

  /** What each side puts on the wire: its header, and "HWL_HS:" and the token, or "OK", with the padding, sealed. */
  lemma HandshakeBytes(c: Aead, token: Bytes, n: Noise)
    requires ValidNoise(n)
    ensures var sealed := n.nonce + c.seal(n.nonce, [72, 87, 76, 95, 72, 83, 58] + token + n.padding);
      Encode(c, HelloFrame(token), n) == [0x48, 0x57, 0x4C, 0x31, 1] + Word32(0) + Word16(7 + |token|) + [|n.padding|]
        + Word32(|sealed|) + sealed
    ensures var sealed := n.nonce + c.seal(n.nonce, [79, 75] + n.padding);
      Encode(c, AckFrame(), n) == [0x48, 0x57, 0x4C, 0x31, 2] + Word32(0) + Word16(2) + [|n.padding|]
        + Word32(|sealed|) + sealed
  {
    EncodedBytes(c, HelloFrame(token), n);
    EncodedBytes(c, AckFrame(), n);
    hide Encode, Word16, Word32;
  }

  /** The session after the handshake starts on a frame boundary: it reads exactly the frames that the peer's
      session wrote, whatever both sides wrote before and after. */
  lemma SessionAfterHandshake(c: Aead, token: Bytes, noise: Noise, fs: seq<Frame>, ns: seq<Noise>, rest: Bytes)
    requires Correct(c) && ValidNoise(noise) && Fits(HelloFrame(token), noise)
    requires |fs| == |ns| && forall k :: 0 <= k < |fs| ==> ValidNoise(ns[k]) && Fits(fs[k], ns[k])
    ensures var atServer := Parse(c, Encode(c, HelloFrame(token), noise) + (Framed(c, fs, ns) + rest));
      && ServerVerdict(atServer, token) == Done
      && ParseMany(Reader(c), atServer.rest, |fs|) == Some((fs, rest))
    ensures var atClient := Parse(c, Encode(c, AckFrame(), noise) + (Framed(c, fs, ns) + rest));
      && ClientVerdict(atClient) == Done
      && ParseMany(Reader(c), atClient.rest, |fs|) == Some((fs, rest))
  {
    hide Encode, Parse, Framed, ParseMany;
    HandshakeAligns(c, token, noise, noise, Framed(c, fs, ns) + rest, Framed(c, fs, ns) + rest);
    ConnectionRoundTrip(c, fs, ns, rest);
  }
}

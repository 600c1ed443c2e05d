/** core/transport/frame.go: the wire format. Encode and Parse say what WriteFrame puts on a connection
    and what ReadFrame makes of a byte stream. */
module Frame {
  import opened Bytes
  import opened Crypto
  import opened Wrappers

  const MAGIC: uint32 := 0x48574C31
  const HANDSHAKE: byte := 1
  const HANDSHAKE_ACK: byte := 2
  const DATA: byte := 3
  const STREAM_OPEN: byte := 4
  const STREAM_CLOSE: byte := 5
  const PING: byte := 6
  const PONG: byte := 7
  const MAX_PAYLOAD: nat := 32768
  const MAX_PADDING: nat := 48
  const MAX_ENCRYPTED: nat := MAX_PAYLOAD + 1024
  const HEADER_SIZE: nat := 12

  datatype Frame = Frame(kind: byte, id: uint32, payload: Bytes)

  /** The random choices of one WriteFrame call. */
  datatype Noise = Noise(padding: Bytes, nonce: Bytes)

  predicate ValidNoise(n: Noise) {
    |n.padding| <= MAX_PADDING && |n.nonce| == NONCE_SIZE
  }

  /** Lengths that the 32-bit length field of the frame can hold. */
  predicate Representable(f: Frame) {
    |f.payload| + MAX_PADDING + NONCE_SIZE + TAG_SIZE < 0x1_0000_0000
  }

  /** Payload and padding together stay below the limit that ReadFrame puts on the encrypted body. */
  predicate Fits(f: Frame, n: Noise) {
    |f.payload| + |n.padding| <= MAX_ENCRYPTED - NONCE_SIZE - TAG_SIZE
  }

  /** uint16(payloadLen) and byte(padLen) truncate. */
  function Header(f: Frame, n: Noise): (h: Bytes)
    ensures |h| == HEADER_SIZE
  {
    ToBE(MAGIC, 4) + [f.kind] + ToBE(f.id, 4) + ToBE(|f.payload|, 2) + [|n.padding| % 256]
  }

  function Body(c: Aead, f: Frame, n: Noise): Bytes {
    Encrypt(c, n.nonce, f.payload + n.padding)
  }

  function Encode(c: Aead, f: Frame, n: Noise): Bytes {
    Header(f, n) + ToBE(|Body(c, f, n)|, 4) + Body(c, f, n)
  }

  datatype FrameError = UnexpectedEof | BadMagic | TooLong | BadCiphertext | BodyTooShort

  datatype ParseResult = Parsed(frame: Frame, rest: Bytes) | Failed(error: FrameError)

  function Parse(c: Aead, b: Bytes): ParseResult {
    if |b| < HEADER_SIZE then Failed(UnexpectedEof)
    else if FromBE(b[0..4]) != MAGIC then Failed(BadMagic)
    else if |b| < HEADER_SIZE + 4 then Failed(UnexpectedEof)
    else
      var encLen := FromBE(b[12..16]);
      if encLen > MAX_ENCRYPTED then Failed(TooLong)
      else if |b| < 16 + encLen then Failed(UnexpectedEof)
      else ParseBody(Decrypt(c, b[16..16 + encLen]), b[..HEADER_SIZE], b[16 + encLen..])
  }

  function ParseBody(body: Option<Bytes>, header: Bytes, rest: Bytes): ParseResult
    requires |header| == HEADER_SIZE
  {
    var payloadLen := FromBE(header[9..11]);
    if body.None? then Failed(BadCiphertext)
    else if |body.value| < payloadLen + header[11] then Failed(BodyTooShort)
    else FromBEBound4(header[5..9]); Parsed(Frame(header[4], FromBE(header[5..9]), body.value[..payloadLen]), rest)
  }

  lemma FromBEBound4(b: Bytes)
    requires |b| == 4
    ensures FromBE(b) < 0x1_0000_0000
  {
    FromBEBound(b);
    Pow256Values();
  }

  /** The fields of an encoded frame, as ReadFrame slices them out. */
  lemma Layout(c: Aead, f: Frame, n: Noise, rest: Bytes)
    requires ValidNoise(n)
    ensures var b := Encode(c, f, n) + rest; var body := Body(c, f, n);
      && |b| == 16 + |body| + |rest|
      && b[..12] == Header(f, n)
      && b[0..4] == ToBE(MAGIC, 4)
      && b[12..16] == ToBE(|body|, 4)
      && b[16..16 + |body|] == body
      && b[16 + |body|..] == rest
  {
    var b, body := Encode(c, f, n) + rest, Body(c, f, n);
    assert b == Header(f, n) + ToBE(|body|, 4) + body + rest;
  }

  lemma HeaderFields(f: Frame, n: Noise)
    requires ValidNoise(n) && |f.payload| < 0x1_0000
    ensures var h := Header(f, n);
      && h[4] == f.kind
      && FromBE(h[5..9]) == f.id
      && FromBE(h[9..11]) == |f.payload|
      && h[11] == |n.padding|
  {
    var h := Header(f, n);
    Pow256Values();
    assert h[5..9] == ToBE(f.id, 4);
    assert h[9..11] == ToBE(|f.payload|, 2);
    BERoundTrip(f.id, 4);
    BERoundTrip(|f.payload|, 2);
  }

  /** A written frame is read back unchanged, and exactly its bytes are consumed, if and only if it fits;
      otherwise it is rejected for its length, never read as another payload. */
  lemma EncodeParse(c: Aead, f: Frame, n: Noise, rest: Bytes)
    requires Correct(c) && ValidNoise(n) && Representable(f)
    ensures Parse(c, Encode(c, f, n) + rest) ==
      if |f.payload| + |n.padding| <= 33764 then Parsed(f, rest) else Failed(TooLong)
  {
    var body := Body(c, f, n);
    DecryptEncrypt(c, n.nonce, f.payload + n.padding);
    Layout(c, f, n, rest);
    Pow256Values();
    BERoundTrip(MAGIC, 4);
    BERoundTrip(|body|, 4);
    if Fits(f, n) {
      HeaderFields(f, n);
      assert (f.payload + n.padding)[..|f.payload|] == f.payload;
    }
  }

  // ---- The wire format, byte by byte ----

  lemma HeaderBytes(f: Frame, n: Noise)
    ensures Header(f, n) ==
      [0x48, 0x57, 0x4C, 0x31, f.kind] + Word32(f.id) + Word16(|f.payload|) + [|n.padding| % 256]
  {
    hide ToBE, Word32, Word16;
    BigEndian(f.id);
    BigEndian(|f.payload|);
    OpeningBytes(f.kind);
  }

  lemma OpeningBytes(kind: byte)
    ensures ToBE(MAGIC, 4) + [kind] == [0x48, 0x57, 0x4C, 0x31, kind]
  {
    hide ToBE;
    BigEndian(MAGIC);
    assert Word32(MAGIC) == [0x48, 0x57, 0x4C, 0x31];
  }

  /** What is written for any frame: the payload length modulo 2^16, and then the body as the cipher seals it. */
  lemma EncodedBytes(c: Aead, f: Frame, n: Noise)
    ensures var sealed := n.nonce + c.seal(n.nonce, f.payload + n.padding);
      Encode(c, f, n) ==
        [0x48, 0x57, 0x4C, 0x31, f.kind] + Word32(f.id) + Word16(|f.payload|) + [|n.padding| % 256]
        + Word32(|sealed|) + sealed
  {
    HeaderBytes(f, n);
    BigEndian(|Body(c, f, n)|);
    hide Header, ToBE, Word32, Word16;
  }

  /** b is this frame, with pad for the length of its padding and body for its encrypted body, and rest after it. */
  ghost predicate LaidOut(b: Bytes, f: Frame, pad: byte, body: Bytes, rest: Bytes) {
    && |f.payload| < 0x1_0000 && |body| <= 33792
    && b == [0x48, 0x57, 0x4C, 0x31, f.kind] + Word32(f.id) + Word16(|f.payload|) + [pad]
            + Word32(|body|) + body + rest
  }

  /** The body decrypts to the payload, followed by at least pad bytes. */
  ghost predicate Opens(c: Aead, f: Frame, pad: byte, body: Bytes) {
    && |body| >= 12 && c.open(body[..12], body[12..]).Some?
    && var text := c.open(body[..12], body[12..]).value;
    && f.payload <= text && |f.payload| + pad <= |text|
  }

  /** Its parts, as ReadFrame slices them out. */
  lemma PartsLaidOut(b: Bytes, f: Frame, pad: byte, body: Bytes, rest: Bytes)
    requires |b| >= 16
    ensures LaidOut(b, f, pad, body, rest) <==>
      && |f.payload| < 0x1_0000 && |body| <= 33792
      && b[0..4] == [0x48, 0x57, 0x4C, 0x31] && b[4] == f.kind && b[5..9] == Word32(f.id)
      && b[9..11] == Word16(|f.payload|) && b[11] == pad && b[12..16] == Word32(|body|) && b[16..] == body + rest
  {
    hide Word32, Word16;
    Slices(b);
    assert |Word32(f.id)| == |Word32(|body|)| == 4 && |Word16(|f.payload|)| == 2 by { Sizes(); }
    if |f.payload| < 0x1_0000 && |body| <= 33792 {
      var h := [0x48, 0x57, 0x4C, 0x31, f.kind] + Word32(f.id) + Word16(|f.payload|) + [pad] + Word32(|body|);
      assert h + body + rest == h + (body + rest);
    }
  }

  lemma Slices(b: Bytes)
    requires |b| >= 16
    ensures b == b[0..4] + [b[4]] + b[5..9] + b[9..11] + [b[11]] + b[12..16] + b[16..]
  {
  }

  lemma Sizes()
    ensures forall n: nat :: |Word32(n)| == 4 && |Word16(n)| == 2
  {
  }

  /** ReadFrame accepts a stream if and only if it starts with "HWL1", a frame of the layout above and a body that
      decrypts; it then returns that frame and leaves what follows. */
  lemma ParsedIff(c: Aead, b: Bytes, f: Frame, rest: Bytes)
    ensures Parse(c, b) == Parsed(f, rest)
       <==> exists pad: byte, body: Bytes :: LaidOut(b, f, pad, body, rest) && Opens(c, f, pad, body)
  {
    if Parse(c, b) == Parsed(f, rest) {
      var pad, body := ParsedMeans(c, b);
      assert LaidOut(b, f, pad, body, rest) && Opens(c, f, pad, body);
    }
    forall pad: byte, body: Bytes | LaidOut(b, f, pad, body, rest) && Opens(c, f, pad, body)
      ensures Parse(c, b) == Parsed(f, rest)
    {
      LaidOutParses(c, b, f, pad, body, rest);
    }
  }

  lemma ParsedMeans(c: Aead, b: Bytes) returns (pad: byte, body: Bytes)
    requires Parse(c, b).Parsed?
    ensures var r := Parse(c, b); LaidOut(b, r.frame, pad, body, r.rest) && Opens(c, r.frame, pad, body)
  {
    hide FromBE, ToBE, LaidOut, Word16, Word32;
    MagicBytes(b[0..4]);
    FromBigEndian(b[5..9]);
    FromBigEndian(b[9..11]);
    FromBigEndian(b[12..16]);
    var r, size := Parse(c, b), FromBE(b[12..16]);
    pad, body := b[11], b[16..16 + size];
    assert b[..HEADER_SIZE][5..9] == b[5..9] && b[..HEADER_SIZE][9..11] == b[9..11];
    assert b[16..] == body + r.rest;
    PartsLaidOut(b, r.frame, pad, body, r.rest);
  }

  lemma LaidOutParses(c: Aead, b: Bytes, f: Frame, pad: byte, body: Bytes, rest: Bytes)
    requires LaidOut(b, f, pad, body, rest) && Opens(c, f, pad, body)
    ensures Parse(c, b) == Parsed(f, rest)
  {
    assert |b| >= 16 by { Sizes(); }
    PartsLaidOut(b, f, pad, body, rest);
    hide FromBE, ToBE, LaidOut, Word16, Word32;
    MagicBytes(b[0..4]);
    WordsRead(b[5..9], f.id);
    WordsRead(b[9..11], |f.payload|);
    WordsRead(b[12..16], |body|);
    assert b[..HEADER_SIZE][5..9] == b[5..9] && b[..HEADER_SIZE][9..11] == b[9..11];
    assert b[16..16 + |body|] == body && b[16 + |body|..] == rest;
  }

  lemma WordsRead(w: Bytes, n: nat)
    requires (w == Word16(n) && n < 0x1_0000) || (w == Word32(n) && n < 0x1_0000_0000)
    ensures FromBE(w) == n
  {
    Pow256Values();
    BigEndian(n);
    if w == Word16(n) && n < 0x1_0000 {
      BERoundTrip(n, 2);
    } else {
      BERoundTrip(n, 4);
    }
  }

  lemma MagicBytes(b: Bytes)
    requires |b| == 4
    ensures FromBE(b) == MAGIC <==> b == [0x48, 0x57, 0x4C, 0x31]
  {
    FromBigEndian(b);
    assert Word32(MAGIC) == [0x48, 0x57, 0x4C, 0x31];
    hide FromBE;
    if b == [0x48, 0x57, 0x4C, 0x31] {
      WordsRead(b, MAGIC);
    }
  }

  /** b starts with a header, and with the whole body that it announces. */
  ghost predicate Complete(b: Bytes) {
    |b| >= 16 && b[..4] == [0x48, 0x57, 0x4C, 0x31] && FromBE(b[12..16]) <= 33792 && |b| >= 16 + FromBE(b[12..16])
  }

  /** Every other stream is an error, and each error has its own cause. */
  lemma ParseFails(c: Aead, b: Bytes)
    ensures Parse(c, b) == Failed(BadMagic) <==> |b| >= 12 && b[..4] != [0x48, 0x57, 0x4C, 0x31]
    ensures Parse(c, b) == Failed(TooLong) <==>
      |b| >= 16 && b[..4] == [0x48, 0x57, 0x4C, 0x31] && FromBE(b[12..16]) > 33792
    ensures Parse(c, b) == Failed(UnexpectedEof) <==>
      |b| < 12 || (b[..4] == [0x48, 0x57, 0x4C, 0x31] && (|b| < 16 || |b| < 16 + FromBE(b[12..16]) <= 16 + 33792))
    ensures var body := if Complete(b) then b[16..16 + FromBE(b[12..16])] else [];
      && (Parse(c, b) == Failed(BadCiphertext) <==>
            Complete(b) && (|body| < 12 || c.open(body[..12], body[12..]) == None))
      && (Parse(c, b) == Failed(BodyTooShort) <==>
            && Complete(b) && |body| >= 12 && c.open(body[..12], body[12..]).Some?
            && |c.open(body[..12], body[12..]).value| < FromBE(b[9..11]) + b[11])
  {
    hide FromBE;
    if |b| >= 12 {
      MagicBytes(b[0..4]);
      assert b[..4] == b[0..4];
      assert b[..HEADER_SIZE][9..11] == b[9..11];
    }
  }

  /** A frame that was cut off is never taken for a frame: a reader fails, or asks for more bytes. */
  lemma PrefixNeverParses(c: Aead, f: Frame, n: Noise, p: Bytes)
    requires Correct(c) && ValidNoise(n) && Representable(f)
    requires p <= Encode(c, f, n) && p != Encode(c, f, n)
    ensures Parse(c, p) == Failed(if |p| >= 16 && !Fits(f, n) then TooLong else UnexpectedEof)
  {
    var b, body := Encode(c, f, n), Body(c, f, n);
    DecryptEncrypt(c, n.nonce, f.payload + n.padding);
    Layout(c, f, n, []);
    assert b + [] == b;
    Pow256Values();
    BERoundTrip(MAGIC, 4);
    BERoundTrip(|body|, 4);
    assert p == b[..|p|];
    if |p| >= 12 { assert p[0..4] == b[0..4]; }
    if |p| >= 16 { assert p[12..16] == b[12..16]; }
  }

  /** ReadFrame with a fixed cipher. */
  function Reader(c: Aead): Bytes -> ParseResult {
    b => Parse(c, b)
  }

  /** What a reader makes of b at the front of any stream: f, with exactly b consumed. */
  ghost predicate ReadsAs(read: Bytes -> ParseResult, b: Bytes, f: Frame) {
    forall rest: Bytes :: read(b + rest) == Parsed(f, rest)
  }

  lemma EncodeReadsAs(c: Aead, f: Frame, n: Noise)
    requires Correct(c) && ValidNoise(n) && Fits(f, n)
    ensures ReadsAs(Reader(c), Encode(c, f, n), f)
  {
    forall rest: Bytes ensures Reader(c)(Encode(c, f, n) + rest) == Parsed(f, rest) {
      EncodeParse(c, f, n, rest);
    }
  }

  /** What k ReadFrame calls return, and the bytes they leave; None if one of them fails. */
  function ParseMany(read: Bytes -> ParseResult, b: Bytes, k: nat): Option<(seq<Frame>, Bytes)>
    decreases k
  {
    if k == 0 then Some(([], b))
    else match read(b)
      case Failed(_) => None
      case Parsed(f, rest) =>
        match ParseMany(read, rest, k - 1)
        case None => None
        case Some((fs, left)) => Some(([f] + fs, left))
  }

  lemma {:induction false} ParseManyChunks(read: Bytes -> ParseResult, chunks: seq<Bytes>, fs: seq<Frame>, rest: Bytes)
    requires |chunks| == |fs| && forall k :: 0 <= k < |fs| ==> ReadsAs(read, chunks[k], fs[k])
    ensures ParseMany(read, Concat(chunks) + rest, |fs|) == Some((fs, rest))
    decreases |fs|
  {
    if fs == [] {
      assert Concat(chunks) + rest == rest;
    } else {
      hide Concat, ReadsAs;
      ParseManyChunks(read, chunks[1..], fs[1..], rest);
      ConcatHead(chunks);
      var left := Concat(chunks[1..]) + rest;
      assert Concat(chunks) + rest == chunks[0] + left;
      ReadsOne(read, chunks[0], fs[0], left);
      assert [fs[0]] + fs[1..] == fs;
    }
  }

  lemma ReadsOne(read: Bytes -> ParseResult, b: Bytes, f: Frame, rest: Bytes)
    requires ReadsAs(read, b, f)
    ensures read(b + rest) == Parsed(f, rest)
  {
  }

  /** What a sequence of WriteFrame calls puts on the connection, frame by frame. */
  function Encodings(c: Aead, fs: seq<Frame>, ns: seq<Noise>): (chunks: seq<Bytes>)
    requires |fs| == |ns|
    ensures |chunks| == |fs|
  {
    seq(|fs|, k requires 0 <= k < |fs| => Encode(c, fs[k], ns[k]))
  }

  /** The bytes of a sequence of frames. */
  function Framed(c: Aead, fs: seq<Frame>, ns: seq<Noise>): Bytes
    requires |fs| == |ns|
  {
    Concat(Encodings(c, fs, ns))
  }

  lemma FramedSplit(c: Aead, fs: seq<Frame>, ns: seq<Noise>, k: nat)
    requires |fs| == |ns| && k <= |fs|
    ensures Framed(c, fs, ns) == Framed(c, fs[..k], ns[..k]) + Framed(c, fs[k..], ns[k..])
  {
    hide Encode;
    assert Encodings(c, fs, ns) == Encodings(c, fs[..k], ns[..k]) + Encodings(c, fs[k..], ns[k..]);
    ConcatAppend(Encodings(c, fs[..k], ns[..k]), Encodings(c, fs[k..], ns[k..]));
  }

  lemma FramedSnoc(c: Aead, fs: seq<Frame>, ns: seq<Noise>, f: Frame, n: Noise)
    requires |fs| == |ns|
    ensures Framed(c, fs + [f], ns + [n]) == Framed(c, fs, ns) + Encode(c, f, n)
  {
    hide Encode;
    assert Encodings(c, fs + [f], ns + [n]) == Encodings(c, fs, ns) + [Encode(c, f, n)];
    ConcatSnoc(Encodings(c, fs, ns), Encode(c, f, n));
  }

  lemma FramedHead(c: Aead, fs: seq<Frame>, ns: seq<Noise>)
    requires |fs| == |ns| > 0
    ensures Framed(c, fs, ns) == Encode(c, fs[0], ns[0]) + Framed(c, fs[1..], ns[1..])
  {
    hide Encode;
    ConcatHead(Encodings(c, fs, ns));
    assert Encodings(c, fs, ns)[1..] == Encodings(c, fs[1..], ns[1..]);
  }

  /** Whole connections: any frames within the limit, with any padding and any nonces, are read back as the
      same list, and what follows them is left untouched. */
  lemma ConnectionRoundTrip(c: Aead, fs: seq<Frame>, ns: seq<Noise>, rest: Bytes)
    requires Correct(c) && |fs| == |ns|
    requires forall k :: 0 <= k < |fs| ==> ValidNoise(ns[k]) && Fits(fs[k], ns[k])
    ensures ParseMany(Reader(c), Framed(c, fs, ns) + rest, |fs|) == Some((fs, rest))
  {
    var chunks := Encodings(c, fs, ns);
    forall k | 0 <= k < |fs| ensures ReadsAs(Reader(c), chunks[k], fs[k]) {
      EncodeReadsAs(c, fs[k], ns[k]);
    }
    ParseManyChunks(Reader(c), chunks, fs, rest);
  }
}

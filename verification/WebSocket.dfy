/** app/server.py: the WebSocket frames that the dashboard gets and sends (sections 5.2 and 5.3 of RFC 6455). */
module WebSocket {
  import opened Bytes
  import opened Wrappers

  /** b | 0x80 */
  function WithTopBit(b: byte): (r: byte)
    ensures r >= 128 && r % 128 == b % 128
  {
    if b < 128 then b + 128 else b
  }

  /** b & 0x7F */
  function LowBits(b: byte): byte {
    b % 128
  }

  function Pow2(k: nat): nat {
    if k == 0 then 1 else 2 * Pow2(k - 1)
  }

  /** The exclusive or, bit by bit, of two numbers of k bits. */
  function XorBits(a: nat, b: nat, k: nat): (r: nat)
    requires a < Pow2(k) && b < Pow2(k)
    ensures r < Pow2(k)
  {
    if k == 0 then 0 else (if a % 2 == b % 2 then 0 else 1) + 2 * XorBits(a / 2, b / 2, k - 1)
  }

  /** a ^ b */
  function Xor(a: byte, b: byte): (r: byte) {
    Pow2Of8();
    XorBits(a, b, 8)
  }

  lemma Pow2Of8()
    ensures Pow2(8) == 256
  {
    assert Pow2(4) == 16;
  }

  lemma Digits(low: nat, high: nat)
    requires low < 2
    ensures (low + 2 * high) / 2 == high && (low + 2 * high) % 2 == low
  {
  }

  lemma {:induction false} XorBitsTwice(a: nat, m: nat, k: nat)
    requires a < Pow2(k) && m < Pow2(k)
    ensures XorBits(XorBits(a, m, k), m, k) == a
  {
    if k > 0 {
      XorBitsTwice(a / 2, m / 2, k - 1);
      var high := XorBits(a / 2, m / 2, k - 1);
      var x := XorBits(a, m, k);
      Digits(if a % 2 == m % 2 then 0 else 1, high);
      assert x / 2 == high;
      assert XorBits(x, m, k) == (if x % 2 == m % 2 then 0 else 1) + 2 * (a / 2);
    }
  }

  lemma XorTwice(x: byte, m: byte)
    ensures Xor(Xor(x, m), m) == x
  {
    Pow2Of8();
    XorBitsTwice(x, m, 8);
  }

  /** Bit j of a number, from the lowest one. */
  function Bit(n: nat, j: nat): nat {
    if j == 0 then n % 2 else Bit(n / 2, j - 1)
  }

  lemma {:induction false} XorBitsAt(a: nat, b: nat, k: nat, j: nat)
    requires a < Pow2(k) && b < Pow2(k) && j < k
    ensures Bit(XorBits(a, b, k), j) == (if Bit(a, j) == Bit(b, j) then 0 else 1)
  {
    var low, high := if a % 2 == b % 2 then 0 else 1, XorBits(a / 2, b / 2, k - 1);
    Digits(low, high);
    if j > 0 {
      XorBitsAt(a / 2, b / 2, k - 1, j - 1);
    }
  }

  /** The second byte without its mask bit, and the extended length. */
  function LengthField(length: nat): (byte, Bytes)
    requires length < 0x1_0000_0000_0000_0000
  {
    if length <= 125 then (length, [])
    else if length <= 65535 then (126, ToBE(length, 2))
    else (127, ToBE(length, 8))
  }

  /** encode_ws_frame; None where to_bytes raises OverflowError. */
  function EncodeFrame(payload: Bytes, opcode: byte): Option<Bytes> {
    if |payload| >= 0x1_0000_0000_0000_0000 then None
    else Some([WithTopBit(opcode), LengthField(|payload|).0] + LengthField(|payload|).1 + payload)
  }

  method EncodeWsFrame(payload: Bytes, opcode: byte) returns (r: Option<Bytes>)
    ensures r == EncodeFrame(payload, opcode)
  {
    hide ToBE;
    var length := |payload|;
    var header: Bytes := [WithTopBit(opcode)];
    if length <= 125 {
      header := header + [length];
      assert header == [WithTopBit(opcode), LengthField(length).0] + LengthField(length).1;
    } else if length <= 65535 {
      header := header + [126];
      header := header + ToBE(length, 2);
      assert header == [WithTopBit(opcode), LengthField(length).0] + LengthField(length).1;
    } else {
      header := header + [127];
      if length >= 0x1_0000_0000_0000_0000 { return None; }
      header := header + ToBE(length, 8);
      assert header == [WithTopBit(opcode), LengthField(length).0] + LengthField(length).1;
    }
    return Some(header + payload);
  }

  /** await reader.read(n) with the whole stream at hand: fewer bytes only at its end. */
  function Front(b: Bytes, n: nat): Bytes {
    if n <= |b| then b[..n] else b
  }

  function Rest(b: Bytes, n: nat): (r: Bytes)
    ensures |r| <= |b|
  {
    if n <= |b| then b[n..] else []
  }

  /** How many bytes of extended length a length code announces. */
  function ExtraSize(code: byte): nat {
    if code == 126 then 2 else if code == 127 then 8 else 0
  }

  /** The payload length that the loop of handle_ws_dashboard reads from the second byte and what follows. */
  function ReadLength(second: byte, after: Bytes): nat {
    var code := LowBits(second);
    if ExtraSize(code) == 0 then code else FromBE(Front(after, ExtraSize(code)))
  }

  /** The exclusive or of the bytes with the mask, over and over. */
  function Mask(data: Bytes, mask: Bytes): (u: Bytes)
    requires data == [] || |mask| == 4
    ensures |u| == |data|
  {
    seq(|data|, i requires 0 <= i < |data| => Xor(data[i], mask[i % 4]))
  }

  /** One turn of the loop: the unmasked data, and the bytes left. */
  function ReadOne(b: Bytes): (Bytes, Bytes)
    requires |b| >= 2
  {
    var after := b[2..];
    var body := Rest(after, ExtraSize(LowBits(b[1])));
    var mask, rest := Front(body, 4), Rest(body, 4);
    var length := ReadLength(b[1], after);
    (Mask(Front(rest, length), mask), Rest(rest, length))
  }

  function ReadAll(b: Bytes): seq<Bytes>
    decreases |b|
  {
    if |b| < 2 then [] else [ReadOne(b).0] + ReadAll(ReadOne(b).1)
  }

  method HandleWsDashboard(incoming: Bytes) returns (seen: seq<Bytes>)
    ensures seen == ReadAll(incoming)
  {
    hide FromBE, Mask, ReadOne;
    seen := [];
    var b := incoming;
    while true
      invariant seen + ReadAll(b) == ReadAll(incoming)
      decreases |b|
    {
      if |Front(b, 2)| < 2 { break; }
      OneTurn(seen, b);
      var data, rest := TakeFrame(b);
      seen, b := seen + [data], rest;
    }
  }

  /** One turn, from the two header bytes on. */
  method TakeFrame(incoming: Bytes) returns (unmasked: Bytes, b: Bytes)
    requires |incoming| >= 2
    ensures (unmasked, b) == ReadOne(incoming) && |b| < |incoming|
  {
    hide FromBE, Mask;
    var hdr := Front(incoming, 2);
    b := Rest(incoming, 2);
    var code := LowBits(hdr[1]);
    var length := code;
    if code == 126 {
      length, b := FromBE(Front(b, 2)), Rest(b, 2);
    } else if code == 127 {
      length, b := FromBE(Front(b, 8)), Rest(b, 8);
    }
    var mask := Front(b, 4);
    b := Rest(b, 4);
    var data := Front(b, length);
    b := Rest(b, length);
    unmasked := Mask(data, mask);
  }

  lemma OneTurn(done: seq<Bytes>, before: Bytes)
    requires |before| >= 2
    ensures done + ReadAll(before) == (done + [ReadOne(before).0]) + ReadAll(ReadOne(before).1)
  {
    hide ReadOne;
  }

  /** A client frame: its first byte, its mask and its payload before masking. */
  datatype ClientFrame = ClientFrame(first: byte, mask: Bytes, payload: Bytes)

  predicate Valid(f: ClientFrame) {
    |f.mask| == 4 && |f.payload| < 0x8000_0000_0000_0000
  }

  /** What a client puts on the wire. */
  function ClientBytes(f: ClientFrame): Bytes
    requires Valid(f)
  {
    [f.first, WithTopBit(LengthField(|f.payload|).0)] + LengthField(|f.payload|).1 + f.mask + Mask(f.payload, f.mask)
  }

  /** The length is recovered from its field, with or without the mask bit. */
  lemma LengthRecovered(length: nat, tail: Bytes)
    requires length < 0x8000_0000_0000_0000
    ensures var (code, extra) := LengthField(length);
      && code <= 127 && |extra| == ExtraSize(code)
      && ReadLength(code, extra + tail) == length
      && ReadLength(WithTopBit(code), extra + tail) == length
  {
    hide Pow256, FromBE, ToBE;
    var (code, extra) := LengthField(length);
    Pow256Values();
    assert LowBits(code) == code && LowBits(WithTopBit(code)) == code;
    if length > 125 {
      BERoundTrip(length, ExtraSize(code));
      assert Front(extra + tail, |extra|) == extra;
    }
  }

  /** encode_ws_frame uses the shortest of the three forms that can hold the length, for a payload below 2^63,
      and the length can be read back from the frame. */
  lemma ShortestForm(payload: Bytes, opcode: byte)
    requires |payload| < 0x8000_0000_0000_0000
    ensures var r := EncodeFrame(payload, opcode); var size := |r.value| - 2 - |payload|;
      && r.Some? && |r.value| >= 2 + |payload|
      && size == (if |payload| <= 125 then 0 else if |payload| <= 65535 then 2 else 8)
      && r.value[1] == (if |payload| <= 125 then |payload| else if |payload| <= 65535 then 126 else 127)
      && (size == 2 ==> r.value[2..4] == Word16(|payload|)) && (size == 8 ==> FromBE(r.value[2..10]) == |payload|)
      && r.value[0] == WithTopBit(opcode)
      && ReadLength(r.value[1], r.value[2..]) == |payload|
      && r.value[2 + size..] == payload
  {
    var (code, extra) := LengthField(|payload|);
    LengthRecovered(|payload|, payload);
    Pow256Values();
    var f := [WithTopBit(opcode), code] + extra + payload;
    assert f[2..] == extra + payload && f[2 + |extra|..] == payload;
  }

  lemma MaskTwice(payload: Bytes, mask: Bytes)
    requires |mask| == 4
    ensures Mask(Mask(payload, mask), mask) == payload
  {
    forall i | 0 <= i < |payload| ensures Xor(Xor(payload[i], mask[i % 4]), mask[i % 4]) == payload[i] {
      XorTwice(payload[i], mask[i % 4]);
    }
  }

  /** Bit by bit, each byte of the payload is inverted where the bit of the mask is set: the mask's bytes take turns. */
  lemma MaskInBits(data: Bytes, mask: Bytes, i: nat, j: nat)
    requires |mask| == 4 && i < |data| && j < 8
    ensures Bit(Mask(data, mask)[i], j) == (if Bit(data[i], j) == Bit(mask[i % 4], j) then 0 else 1)
  {
    Pow2Of8();
    XorBitsAt(data[i], mask[i % 4], 8, j);
  }

  /** The header of a frame, as it says how long it is itself and how long the payload. */
  predicate Announces(b: Bytes, header: nat, size: nat) {
    || (|b| >= 2 && b[1] % 128 <= 125 && header == 2 && size == b[1] % 128)
    || (|b| >= 4 && b[1] % 128 == 126 && header == 4 && size < 0x1_0000 && b[2..4] == Word16(size))
    || (|b| >= 10 && b[1] % 128 == 127 && header == 10 && size == FromBE(b[2..10]))
  }

  /** One turn of the loop in the bytes of the stream: after the header comes the mask, and then the payload, as much of
      it as there is, which is unmasked bit by bit; what follows it is left for the next turn. */
  lemma TurnInBytes(b: Bytes, header: nat, size: nat)
    requires Announces(b, header, size)
    ensures var (u, rest) := ReadOne(b); var start := header + 4;
      && |u| == (if |b| < start then 0 else if |b| < start + size then |b| - start else size)
      && rest == (if |b| < start + size then [] else b[start + size..])
      && forall i, j :: 0 <= i < |u| && 0 <= j < 8 ==>
           Bit(u[i], j) == if Bit(b[start + i], j) == Bit(b[header + i % 4], j) then 0 else 1
  {
    var u, start := ReadOne(b).0, header + 4;
    TurnParts(b, header, size);
    var data := Payload(b, start, size);
    hide ReadOne, Announces, Mask, Bit, Payload;
    PayloadAt(b, start, size);
    forall i, j | 0 <= i < |u| && 0 <= j < 8
      ensures Bit(u[i], j) == if Bit(b[start + i], j) == Bit(b[header + i % 4], j) then 0 else 1
    {
      MaskInBits(data, b[header..start], i, j);
      assert data[i] == b[start + i] && b[header..start][i % 4] == b[header + i % 4];
    }
  }

  /** What there is of a payload of this size. */
  function Payload(b: Bytes, start: nat, size: nat): Bytes {
    if |b| < start then [] else if |b| < start + size then b[start..] else b[start..start + size]
  }

  lemma PayloadAt(b: Bytes, start: nat, size: nat)
    ensures var data := Payload(b, start, size);
      && |data| == (if |b| < start then 0 else if |b| < start + size then |b| - start else size)
      && (data != [] ==> start <= |b|) && forall i :: 0 <= i < |data| ==> start + i < |b| && data[i] == b[start + i]
  {
  }

  lemma TurnParts(b: Bytes, header: nat, size: nat)
    requires Announces(b, header, size)
    ensures var start := header + 4; var data := Payload(b, start, size);
      && |b| >= 2 && ReadOne(b).1 == (if |b| < start + size then [] else b[start + size..])
      && (if data == [] then ReadOne(b).0 == [] else |b| >= start && ReadOne(b).0 == Mask(data, b[header..start]))
  {
    AnnouncesLength(b, header, size);
    var body := Rest(b[2..], header - 2);
    assert body == b[header..];
    hide Announces, ReadLength, ExtraSize, Mask;
    var mask, rest := Front(body, 4), Rest(body, 4);
    assert Front(rest, size) == Payload(b, header + 4, size);
    assert |b| >= header + 4 ==> mask == b[header..header + 4];
  }

  lemma AnnouncesLength(b: Bytes, header: nat, size: nat)
    requires Announces(b, header, size)
    ensures |b| >= header >= 2 && header - 2 == ExtraSize(LowBits(b[1])) && ReadLength(b[1], b[2..]) == size
  {
    if b[1] % 128 == 126 {
      assert Front(b[2..], 2) == b[2..4];
      BigEndian(size);
      Pow256Values();
      BERoundTrip(size, 2);
    } else if b[1] % 128 == 127 {
      assert Front(b[2..], 8) == b[2..10];
    }
  }

  lemma Cuts(a: Bytes, b: Bytes)
    ensures Front(a + b, |a|) == a && Rest(a + b, |a|) == b
  {
  }

  /** What one turn makes of a frame laid out as section 5.2 of RFC 6455 says. */
  lemma ReadsLayout(first: byte, second: byte, extra: Bytes, mask: Bytes, masked: Bytes, tail: Bytes)
    requires |extra| == ExtraSize(LowBits(second)) && |mask| == 4
    requires ReadLength(second, extra + (mask + (masked + tail))) == |masked|
    ensures ReadOne([first, second] + (extra + (mask + (masked + tail)))) == (Mask(masked, mask), tail)
  {
    hide Mask, ReadLength, ExtraSize, Front, Rest;
    var b := [first, second] + (extra + (mask + (masked + tail)));
    assert b[1] == second && b[2..] == extra + (mask + (masked + tail));
    Cuts(extra, mask + (masked + tail));
    Cuts(mask, masked + tail);
    Cuts(masked, tail);
  }

  lemma ClientLayout(f: ClientFrame, tail: Bytes)
    requires Valid(f)
    ensures var (code, extra) := LengthField(|f.payload|);
      ClientBytes(f) + tail
        == [f.first, WithTopBit(code)] + (extra + (f.mask + (Mask(f.payload, f.mask) + tail)))
  {
    hide LengthField, Mask;
  }

  /** One turn consumes exactly one frame and restores its payload. */
  lemma ReadsOneFrame(f: ClientFrame, tail: Bytes)
    requires Valid(f)
    ensures |ClientBytes(f) + tail| >= 2 && ReadOne(ClientBytes(f) + tail) == (f.payload, tail)
  {
    hide LengthField, Mask, ReadLength, ClientBytes, ReadOne;
    var (code, extra) := LengthField(|f.payload|);
    var masked := Mask(f.payload, f.mask);
    LengthRecovered(|f.payload|, f.mask + (masked + tail));
    ClientLayout(f, tail);
    ReadsLayout(f.first, WithTopBit(code), extra, f.mask, masked, tail);
    MaskTwice(f.payload, f.mask);
  }

  function ClientStream(fs: seq<ClientFrame>): Bytes
    requires forall k :: 0 <= k < |fs| ==> Valid(fs[k])
  {
    if fs == [] then [] else ClientBytes(fs[0]) + ClientStream(fs[1..])
  }

  /** The dashboard loop consumes any concatenation of masked client frames exactly frame by frame, and its XOR
      restores every payload. */
  lemma {:induction false} LoopReadsAllFrames(fs: seq<ClientFrame>, tail: Bytes)
    requires forall k :: 0 <= k < |fs| ==> Valid(fs[k])
    requires |tail| < 2
    ensures ReadAll(ClientStream(fs) + tail) == seq(|fs|, k requires 0 <= k < |fs| => fs[k].payload)
    decreases |fs|
  {
    hide ClientBytes, ReadOne;
    if fs == [] {
      assert ClientStream(fs) + tail == tail;
    } else {
      var rest := ClientStream(fs[1..]) + tail;
      assert ClientStream(fs) + tail == ClientBytes(fs[0]) + rest;
      ReadsOneFrame(fs[0], rest);
      LoopReadsAllFrames(fs[1..], tail);
    }
  }
}

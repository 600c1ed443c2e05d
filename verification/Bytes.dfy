/** Bytes and big-endian integers, as encoding/binary and int.to_bytes(…, 'big') write them. */
module Bytes {

  type byte = x: int | 0 <= x < 256
  type Bytes = seq<byte>
  type uint32 = x: int | 0 <= x < 0x1_0000_0000

  /** 256 to the power k: the number of values k bytes can hold. */
  function Pow256(k: nat): (p: nat)
    ensures p > 0
  {
    if k == 0 then 1 else 256 * Pow256(k - 1)
  }

  /** The k low-order bytes of n, most significant first (higher bytes are cut off). */
  function ToBE(n: nat, k: nat): (b: Bytes)
    ensures |b| == k
  {
    if k == 0 then [] else ToBE(n / 256, k - 1) + [n % 256]
  }

  function FromBE(b: Bytes): nat
  {
    if b == [] then 0 else FromBE(b[..|b| - 1]) * 256 + b[|b| - 1]
  }

  lemma DivBelow(n: nat, m: nat)
    requires n < 256 * m
    ensures n / 256 < m
  {
  }

  /** A number that fits into k bytes is recovered from them. */
  lemma {:induction false} BERoundTrip(n: nat, k: nat)
    requires n < Pow256(k)
    ensures FromBE(ToBE(n, k)) == n
  {
    if k > 0 {
      DivBelow(n, Pow256(k - 1));
      BERoundTrip(n / 256, k - 1);
      assert ToBE(n, k)[..k - 1] == ToBE(n / 256, k - 1);
    }
  }

  /** Any k bytes are a number below 256^k. */
  lemma {:induction false} FromBEBound(b: Bytes)
    ensures FromBE(b) < Pow256(|b|)
  {
    if b != [] {
      FromBEBound(b[..|b| - 1]);
    }
  }

  /** And they are recovered from it. */
  lemma {:induction false} BytesRoundTrip(b: Bytes)
    ensures ToBE(FromBE(b), |b|) == b
  {
    if b != [] {
      BytesRoundTrip(b[..|b| - 1]);
      assert FromBE(b) / 256 == FromBE(b[..|b| - 1]) && FromBE(b) % 256 == b[|b| - 1];
    }
  }

  lemma Pow256Values()
    ensures Pow256(2) == 0x1_0000
    ensures Pow256(4) == 0x1_0000_0000
    ensures Pow256(8) == 0x1_0000_0000_0000_0000
  {
    assert Pow256(1) == 256;
    assert Pow256(3) == 256 * 0x1_0000;
    assert Pow256(4) == 256 * Pow256(3);
    assert Pow256(5) == 256 * Pow256(4);
    assert Pow256(6) == 256 * Pow256(5);
    assert Pow256(7) == 256 * Pow256(6);
    assert Pow256(8) == 256 * Pow256(7);
  }

  // ---- The two lengths in use, written out: the first byte counts most ----

  function Word16(n: nat): Bytes {
    [n / 0x100 % 256, n % 256]
  }

  function Word32(n: nat): Bytes {
    [n / 0x100_0000 % 256, n / 0x1_0000 % 256, n / 0x100 % 256, n % 256]
  }

  lemma BigEndian(n: nat)
    ensures ToBE(n, 2) == Word16(n) && ToBE(n, 4) == Word32(n)
  {
    assert n / 256 / 256 == n / 0x1_0000 && n / 0x1_0000 / 256 == n / 0x100_0000;
    assert ToBE(n / 0x1_0000, 2) == [n / 0x100_0000 % 256, n / 0x1_0000 % 256];
    assert ToBE(n / 256, 3) == ToBE(n / 0x1_0000, 2) + [n / 0x100 % 256];
  }

  lemma FromBigEndian(b: Bytes)
    ensures |b| == 2 ==> b == Word16(FromBE(b)) && FromBE(b) < 0x1_0000
    ensures |b| == 4 ==> b == Word32(FromBE(b)) && FromBE(b) < 0x1_0000_0000
  {
    BytesRoundTrip(b);
    FromBEBound(b);
    Pow256Values();
    BigEndian(FromBE(b));
    hide ToBE, Word16, Word32;
  }

  /** The chunks one after the other. */
  function Concat(chunks: seq<Bytes>): Bytes
  {
    if chunks == [] then [] else Concat(chunks[..|chunks| - 1]) + chunks[|chunks| - 1]
  }

  lemma ConcatSnoc(chunks: seq<Bytes>, last: Bytes)
    ensures Concat(chunks + [last]) == Concat(chunks) + last
  {
    assert (chunks + [last])[..|chunks|] == chunks;
  }

  lemma {:induction false} ConcatAppend(a: seq<Bytes>, b: seq<Bytes>)
    ensures Concat(a + b) == Concat(a) + Concat(b)
  {
    if b == [] {
      assert a + b == a;
    } else {
      var k := |b| - 1;
      ConcatAppend(a, b[..k]);
      ConcatSnoc(a + b[..k], b[k]);
      assert a + b == (a + b[..k]) + [b[k]];
    }
  }

  lemma ConcatHead(chunks: seq<Bytes>)
    requires chunks != []
    ensures Concat(chunks) == chunks[0] + Concat(chunks[1..])
  {
    ConcatAppend(chunks[..1], chunks[1..]);
    ConcatSnoc([], chunks[0]);
    assert [] + [chunks[0]] == chunks[..1] && chunks[..1] + chunks[1..] == chunks;
  }

  /** Writes the k low-order bytes of v into b at offset at, as PutUint16 and PutUint32 do. */
  method PutBE(b: array<byte>, at: nat, k: nat, v: nat)
    requires at + k <= b.Length
    modifies b
    ensures b[..] == old(b[..at]) + ToBE(v, k) + old(b[at + k..])
  {
    if k > 0 {
      b[at + k - 1] := v % 256;
      PutBE(b, at, k - 1, v / 256);
    }
  }
}

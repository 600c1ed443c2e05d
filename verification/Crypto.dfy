/** core/transport/crypto.go: nonce-prefix framing around an AEAD that is a parameter. */
module Crypto {
  import opened Bytes
  import opened Wrappers

  const NONCE_SIZE: nat := 12
  const TAG_SIZE: nat := 16

  /** Seal and Open of cipher.AEAD with no additional data. */
  datatype Aead = Aead(seal: (Bytes, Bytes) -> Bytes, open: (Bytes, Bytes) -> Option<Bytes>)

  /** What sections 5.1 and 5.2 of RFC 5116 promise of AES-GCM: Open inverts Seal, and the tag is 16 bytes. */
  ghost predicate Correct(c: Aead) {
    forall nonce: Bytes, text: Bytes {:trigger c.seal(nonce, text)} :: |nonce| == NONCE_SIZE ==>
      |c.seal(nonce, text)| == |text| + TAG_SIZE &&
      c.open(nonce, c.seal(nonce, text)) == Some(text)
  }

  /** [nonce | ciphertext | tag] */
  function Encrypt(c: Aead, nonce: Bytes, text: Bytes): Bytes {
    nonce + c.seal(nonce, text)
  }

  function Decrypt(c: Aead, data: Bytes): Option<Bytes> {
    if |data| < NONCE_SIZE then None else c.open(data[..NONCE_SIZE], data[NONCE_SIZE..])
  }

  lemma DecryptEncrypt(c: Aead, nonce: Bytes, text: Bytes)
    requires Correct(c) && |nonce| == NONCE_SIZE
    ensures |Encrypt(c, nonce, text)| == NONCE_SIZE + |text| + TAG_SIZE
    ensures Decrypt(c, Encrypt(c, nonce, text)) == Some(text)
  {
    var sealed := c.seal(nonce, text);
    assert (nonce + sealed)[..NONCE_SIZE] == nonce;
    assert (nonce + sealed)[NONCE_SIZE..] == sealed;
  }

  /** What c seals, d does not open: the tag is checked under another key. */
  ghost predicate Rejects(d: Aead, c: Aead) {
    forall nonce: Bytes, text: Bytes {:trigger c.seal(nonce, text)} :: |nonce| == NONCE_SIZE ==>
      d.open(nonce, c.seal(nonce, text)) == None
  }

  lemma DecryptRejects(d: Aead, c: Aead, nonce: Bytes, text: Bytes)
    requires Rejects(d, c) && |nonce| == NONCE_SIZE
    ensures Decrypt(d, Encrypt(c, nonce, text)) == None
  {
    var sealed := c.seal(nonce, text);
    assert (nonce + sealed)[..NONCE_SIZE] == nonce;
    assert (nonce + sealed)[NONCE_SIZE..] == sealed;
  }

  /** A cipher without secrecy: the tag is the nonce, the key and three zero bytes. It shows that Correct and Rejects
      can be met. */
  function Toy(key: byte): Aead {
    Aead(
      (nonce: Bytes, text: Bytes) => text + nonce + [key, 0, 0, 0],
      (nonce: Bytes, sealed: Bytes) =>
        if |sealed| >= 16 && sealed[|sealed| - 16..] == nonce + [key, 0, 0, 0]
        then Some(sealed[..|sealed| - 16]) else None)
  }

  lemma ToyIsCorrect(key: byte, other: byte)
    ensures Correct(Toy(key)) && (key != other ==> Rejects(Toy(other), Toy(key)))
  {
    forall nonce: Bytes, text: Bytes | |nonce| == NONCE_SIZE
      ensures |Toy(key).seal(nonce, text)| == |text| + TAG_SIZE
      ensures Toy(key).open(nonce, Toy(key).seal(nonce, text)) == Some(text)
      ensures key != other ==> Toy(other).open(nonce, Toy(key).seal(nonce, text)) == None
    {
      var sealed := text + nonce + [key, 0, 0, 0];
      assert Toy(key).seal(nonce, text) == sealed;
      assert sealed[|sealed| - 16..] == nonce + [key, 0, 0, 0];
      assert (nonce + [key, 0, 0, 0])[12] == key && (nonce + [other, 0, 0, 0])[12] == other;
      assert sealed[..|sealed| - 16] == text;
    }
  }
}

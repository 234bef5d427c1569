/**
 * The known-answer runner and the tamper fuzzer of the OCB-AES harness
 * (src/tests/ocb-aes.cc): `test_encrypt`, `test_decrypt`, `test_vector`
 * and the `TEST_VECTOR` macro. A `fatal_assert` that fails aborts the test
 * run; here it makes the method return `passed == false`.
 */
module OcbVectors {
  import opened Wrappers
  import opened AlignedBuffers
  import opened AeEngine

  /** Number of corrupted ciphertexts tried per vector. */
  const TamperTrials: nat := 64

  /**
   * The two values one tamper trial draws from the PRNG: `prng.uint32()`
   * picks the byte, `prng.uint8()` picks the bit. The generator is not
   * modelled, so any values are allowed.
   */
  datatype Draw = Draw(word: nat, octet: nat)

  /** `1 << bit` as a byte, for `bit` in 0..7. */
  function BitMask(bit: nat): (m: Byte)
    requires bit < 8
    ensures m != 0
  {
    [0x01, 0x02, 0x04, 0x08, 0x10, 0x20, 0x40, 0x80][bit]
  }

  /** Bit `b` of `x`, counting from the least significant. */
  predicate BitSet(x: Byte, b: nat)
    requires b < 8
  {
    x & BitMask(b) != 0
  }

  /** The byte a tamper trial corrupts: `prng.uint32() % bad_ct.len()`. */
  function TamperIndex(ct: seq<Byte>, d: Draw): (i: nat)
    requires |ct| > 0
    ensures i < |ct|
  {
    d.word % |ct|
  }

  /**
   * The corrupted copy one tamper trial decrypts: a copy of `ct` whose byte
   * `TamperIndex` is XORed with `1 << (prng.uint8() % 8)`.
   */
  function Tampered(ct: seq<Byte>, d: Draw): (bad: seq<Byte>)
    requires |ct| > 0
    ensures |bad| == |ct|
  {
    var i := TamperIndex(ct, d);
    ct[i := ct[i] ^ BitMask(d.octet % 8)]
  }

  /**
   * A tamper trial changes exactly one bit: every byte but the chosen one is
   * kept, and in the chosen byte exactly bit `octet % 8` is inverted.
   */
  lemma TamperFlipsOneBit(ct: seq<Byte>, d: Draw)
    requires |ct| > 0
    ensures var bad, i := Tampered(ct, d), TamperIndex(ct, d);
      && |bad| == |ct|
      && (forall j :: 0 <= j < |ct| && j != i ==> bad[j] == ct[j])
      && bad[i] != ct[i]
      && (forall b: nat :: b < 8 ==> (BitSet(bad[i], b) != BitSet(ct[i], b) <==> b == d.octet % 8))
  {
    var i, m := TamperIndex(ct, d), d.octet % 8;
    var x := ct[i];
    var y := x ^ BitMask(m);
    assert Tampered(ct, d)[i] == y;
    forall b: nat | b < 8
      ensures BitSet(y, b) != BitSet(x, b) <==> b == m
    {
      FlipOneBitOfByte(x, m, b);
    }
  }

  /** XOR with `1 << m` inverts bit `m` and keeps every other bit. */
  lemma FlipOneBitOfByte(x: Byte, m: nat, b: nat)
    requires m < 8 && b < 8
    ensures BitSet(x ^ BitMask(m), b) != BitSet(x, b) <==> b == m
  {
    var mm, mb := BitMask(m), BitMask(b);
    assert (x ^ mm) & mb == (x & mb) ^ (mm & mb);
    if b == m {
      SingleBitMask(x, b);
    } else {
      DistinctMasksDisjoint(m, b);
    }
  }

  /** A mask has one bit, so it meets any byte in nothing or in itself. */
  lemma SingleBitMask(x: Byte, b: nat)
    requires b < 8
    ensures x & BitMask(b) == 0 || x & BitMask(b) == BitMask(b)
  {
    if b == 0 {} else if b == 1 {} else if b == 2 {} else if b == 3 {}
    else if b == 4 {} else if b == 5 {} else if b == 6 {} else {}
  }

  /** Masks of different bits share no bit. */
  lemma DistinctMasksDisjoint(m: nat, b: nat)
    requires m < 8 && b < 8 && m != b
    ensures BitMask(m) & BitMask(b) == 0
  {
    if m == 0 {} else if m == 1 {} else if m == 2 {} else if m == 3 {}
    else if m == 4 {} else if m == 5 {} else if m == 6 {} else {}
  }

  /**
   * What the harness checks of one vector: the engine reproduces the
   * expected ciphertext, decrypts it back to the plaintext, and rejects
   * every one of the tampered copies.
   */
  predicate VectorPasses(e: Engine, key: seq<Byte>, nonce: seq<Byte>, ad: seq<Byte>,
                         pt: seq<Byte>, ct: seq<Byte>, draws: seq<Draw>)
  {
    && e.encrypt(key, nonce, pt, ad) == ct
    && e.decrypt(key, nonce, ct, ad) == Some(pt)
    && |ct| >= TagLen
    && forall t :: 0 <= t < |draws| ==> e.decrypt(key, nonce, Tampered(ct, draws[t]), ad).None?
  }

  /**
   * A passing vector satisfies the length invariant of the test vectors
   * and the round trip: decrypting what was encrypted gives the plaintext.
   */
  lemma PassingVectorRoundTrip(e: Engine, key: seq<Byte>, nonce: seq<Byte>, ad: seq<Byte>,
                               pt: seq<Byte>, ct: seq<Byte>, draws: seq<Draw>)
    requires LengthContract(e)
    requires VectorPasses(e, key, nonce, ad, pt, ct, draws)
    ensures |ct| == |pt| + TagLen
    ensures e.decrypt(key, nonce, e.encrypt(key, nonce, pt, ad), ad) == Some(pt)
  {
  }

  /**
   * `test_encrypt`: encrypt into a fresh buffer of `plaintext.len() + TAG_LEN`
   * bytes; pass when the returned length is the expected ciphertext's and
   * the bytes are equal.
   */
  method TestEncrypt(e: Engine, key: AlignedBuffer, nonce: AlignedBuffer, plaintext: AlignedBuffer,
                     assoc: AlignedBuffer, expected: AlignedBuffer)
    returns (passed: bool)
    requires LengthContract(e) && key.Len() == KeyLen
    ensures passed <==>
      expected.Bytes() == e.encrypt(key.Bytes(), nonce.Bytes(), plaintext.Bytes(), assoc.Bytes())
    ensures passed ==> expected.Len() == plaintext.Len() + TagLen
  {
    var ctx := new AeContext(key.Bytes());
    var observed := new AlignedBuffer(plaintext.Len() + TagLen);
    var ret := ctx.Encrypt(e, nonce.Bytes(), plaintext.Bytes(), assoc.Bytes(), observed);
    assert observed.Bytes() == observed.Bytes()[..ret];
    passed := ret == expected.Len() && Equal(expected, observed);
    if !passed {
      return;  // fatal_assert: the run stops, the context is never cleared
    }
    ctx.Scrap();
  }

  /**
   * `test_decrypt`: decrypt into a fresh buffer of `ciphertext.len() - TAG_LEN`
   * bytes. A `valid` vector passes when the returned length is the expected
   * plaintext's and the bytes are equal; an invalid one passes exactly when
   * the engine returns `AE_INVALID`.
   */
  method TestDecrypt(e: Engine, key: AlignedBuffer, nonce: AlignedBuffer, ciphertext: AlignedBuffer,
                     assoc: AlignedBuffer, expected: AlignedBuffer, valid: bool)
    returns (passed: bool)
    requires LengthContract(e) && key.Len() == KeyLen
    requires ciphertext.Len() >= TagLen
    ensures valid ==> (passed <==>
      e.decrypt(key.Bytes(), nonce.Bytes(), ciphertext.Bytes(), assoc.Bytes()) == Some(expected.Bytes()))
    ensures !valid ==> (passed <==>
      e.decrypt(key.Bytes(), nonce.Bytes(), ciphertext.Bytes(), assoc.Bytes()).None?)
  {
    var ctx := new AeContext(key.Bytes());
    var observed := new AlignedBuffer(ciphertext.Len() - TagLen);
    var ret := ctx.Decrypt(e, nonce.Bytes(), ciphertext.Bytes(), assoc.Bytes(), observed);
    if ret == observed.Len() {
      assert observed.Bytes()[..ret] == observed.Bytes();
    }
    if valid {
      passed := ret == expected.Len() && Equal(expected, observed);
    } else {
      passed := ret == AeInvalid;
    }
    if !passed {
      return;  // fatal_assert: the run stops, the context is never cleared
    }
    ctx.Scrap();
  }

  /**
   * `test_vector`: copy the literals into buffers (key and nonce at their
   * fixed lengths), run the encrypt and decrypt checks, then 64 tamper
   * trials, each on a fresh copy of the ciphertext with one bit flipped,
   * each of which must be rejected.
   */
  method TestVector(e: Engine, keyP: seq<Byte>, nonceP: seq<Byte>,
                    assocLen: nat, assocP: seq<Byte>, ptLen: nat, ptP: seq<Byte>,
                    ctLen: nat, ctP: seq<Byte>, draws: seq<Draw>)
    returns (passed: bool)
    requires LengthContract(e)
    requires KeyLen <= |keyP| && NonceLen <= |nonceP|
    requires assocLen <= |assocP| && ptLen <= |ptP| && ctLen <= |ctP|
    requires |draws| == TamperTrials
    ensures passed <==> VectorPasses(e, keyP[..KeyLen], nonceP[..NonceLen], assocP[..assocLen],
                                     ptP[..ptLen], ctP[..ctLen], draws)
  {
    var key := new AlignedBuffer.FromBytes(KeyLen, keyP);
    var nonce := new AlignedBuffer.FromBytes(NonceLen, nonceP);
    var plaintext := new AlignedBuffer.FromBytes(ptLen, ptP);
    var assoc := new AlignedBuffer.FromBytes(assocLen, assocP);
    var ciphertext := new AlignedBuffer.FromBytes(ctLen, ctP);
    ghost var k, n, ad, pt, ct := keyP[..KeyLen], nonceP[..NonceLen], assocP[..assocLen], ptP[..ptLen], ctP[..ctLen];

    passed := TestEncrypt(e, key, nonce, plaintext, assoc, ciphertext);
    if !passed {
      return;
    }
    passed := TestDecrypt(e, key, nonce, ciphertext, assoc, plaintext, true);
    if !passed {
      return;
    }

    for i := 0 to TamperTrials
      invariant key.Bytes() == k && nonce.Bytes() == n && assoc.Bytes() == ad && ciphertext.Bytes() == ct
      invariant forall t :: 0 <= t < i ==> e.decrypt(k, n, Tampered(ct, draws[t]), ad).None?
    {
      var rejected := TamperTrial(e, key, nonce, assoc, plaintext, ciphertext, draws[i]);
      if !rejected {
        return false;
      }
    }
  }

  /**
   * One pass of the tamper loop: a fresh copy of the ciphertext with one bit
   * flipped, which `test_decrypt` must see rejected.
   */
  method TamperTrial(e: Engine, key: AlignedBuffer, nonce: AlignedBuffer, assoc: AlignedBuffer,
                     plaintext: AlignedBuffer, ciphertext: AlignedBuffer, d: Draw)
    returns (rejected: bool)
    requires LengthContract(e) && key.Len() == KeyLen && ciphertext.Len() >= TagLen
    ensures rejected <==>
      e.decrypt(key.Bytes(), nonce.Bytes(), Tampered(ciphertext.Bytes(), d), assoc.Bytes()).None?
  {
    var badCt := new AlignedBuffer.FromBytes(ciphertext.Len(), ciphertext.Bytes());
    var at := d.word % badCt.Len();
    badCt.data[at] := badCt.data[at] ^ BitMask(d.octet % 8);
    assert badCt.Bytes() == Tampered(ciphertext.Bytes(), d);
    rejected := TestDecrypt(e, key, nonce, badCt, assoc, plaintext, false);
  }

  /** How a C string literal is stored: its bytes, then a terminating NUL. */
  function Storage(text: seq<Byte>): (s: seq<Byte>)
    ensures |s| == |text| + 1 && s[..|text|] == text
  {
    text + [0]
  }

  /**
   * `TEST_VECTOR( key, nonce, assoc, pt, ct )`: each variable-length literal
   * is passed with length `sizeof(literal) - 1`, so its buffer is exactly
   * the literal's bytes, embedded NUL bytes included; key and nonce are read
   * at their fixed lengths.
   */
  method TestVectorMacro(e: Engine, keyText: seq<Byte>, nonceText: seq<Byte>, assocText: seq<Byte>,
                         ptText: seq<Byte>, ctText: seq<Byte>, draws: seq<Draw>)
    returns (passed: bool)
    requires LengthContract(e)
    requires KeyLen <= |Storage(keyText)| && NonceLen <= |Storage(nonceText)|
    requires |draws| == TamperTrials
    ensures passed <==> VectorPasses(e, Storage(keyText)[..KeyLen], Storage(nonceText)[..NonceLen],
                                     assocText, ptText, ctText, draws)
  {
    var assocLit, ptLit, ctLit := Storage(assocText), Storage(ptText), Storage(ctText);
    passed := TestVector(e, Storage(keyText), Storage(nonceText),
                         |assocLit| - 1, assocLit, |ptLit| - 1, ptLit, |ctLit| - 1, ctLit, draws);
  }
}

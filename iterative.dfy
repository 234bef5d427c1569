/**
 * `test_iterative` of the OCB-AES harness (src/tests/ocb-aes.cc): the
 * iterative test algorithm of Appendix A of draft-krovetz-ocb-03. 128 rounds
 * of three encryptions are packed into one accumulator, which is then
 * authenticated as associated data; the resulting tag is compared with a
 * published constant.
 */
module OcbIterative {
  import opened AlignedBuffers
  import opened AeEngine

  const Rounds: nat := 128

  /** The accumulator's fixed size. */
  const AccumulatorLen: nat := 22400

  /** The published final tag. */
  const IterativeTag: seq<Byte> :=
    [0xB2, 0xB4, 0x1C, 0xBF, 0x9B, 0x05, 0x03, 0x7D, 0xA7, 0xF1, 0x6C, 0x24, 0xA3, 0x5C, 0x1C, 0x94]

  /**
   * The byte `nonce[11] = i` stores for a round counter `i` below 256,
   * counted up from zero in byte arithmetic.
   */
  function RoundByte(i: nat): Byte
    requires i < 256
  {
    if i == 0 then 0 else RoundByte(i - 1) + 1
  }

  /** A round counter below 256 is stored without loss. */
  lemma {:induction false} RoundByteValue(i: nat)
    requires i < 256
    ensures RoundByte(i) as int == i
  {
    if i > 0 {
      RoundByteValue(i - 1);
      ByteSuccessor(RoundByte(i - 1));
    }
  }

  /** Adding one to a byte below 255 does not wrap. */
  lemma ByteSuccessor(b: Byte)
    requires b as int < 255
    ensures (b + 1) as int == b as int + 1
  {
  }

  /** The nonce of round `i`: eleven zero bytes followed by the byte `i`. */
  function RoundNonce(i: nat): (n: seq<Byte>)
    requires i < 256
  {
    Zeros(NonceLen - 1) + [RoundByte(i)]
  }

  /** The nonce schedule gives every round its own nonce, and round 0's is all zeros. */
  lemma RoundNoncesDistinct(i: nat, j: nat)
    requires i < 256 && j < 256
    ensures |RoundNonce(i)| == NonceLen && RoundNonce(i)[NonceLen - 1] as int == i
    ensures RoundNonce(i) == RoundNonce(j) <==> i == j
    ensures RoundNonce(0) == Zeros(NonceLen)
  {
    RoundByteValue(i);
    RoundByteValue(j);
    if RoundNonce(i) == RoundNonce(j) {
      assert RoundNonce(i)[NonceLen - 1] == RoundNonce(j)[NonceLen - 1];
    }
  }

  /**
   * What round `i` appends, with `S` the string of `i` zero bytes:
   * OCB-ENCRYPT(K,N,S,S) in full, OCB-ENCRYPT(K,N,<empty>,S) in full and the
   * tag of OCB-ENCRYPT(K,N,S,<empty>) (the draft names associated data
   * before plaintext).
   */
  function RoundOutput(e: Engine, i: nat): seq<Byte>
    requires LengthContract(e) && i < 256
  {
    var s, n, k := Zeros(i), RoundNonce(i), Zeros(KeyLen);
    e.encrypt(k, n, s, s) + e.encrypt(k, n, s, []) + e.encrypt(k, n, [], s)[..TagLen]
  }

  /**
   * Round `i` contributes three chunks of `i + TAG_LEN`, `i + TAG_LEN` and
   * `TAG_LEN` bytes, `2*i + 3*TAG_LEN` in all.
   */
  lemma RoundOutputLength(e: Engine, i: nat)
    requires LengthContract(e) && i < 256
    ensures var s, n, k := Zeros(i), RoundNonce(i), Zeros(KeyLen);
      && |e.encrypt(k, n, s, s)| == i + TagLen
      && |e.encrypt(k, n, s, [])| == i + TagLen
      && |e.encrypt(k, n, [], s)[..TagLen]| == TagLen
    ensures |RoundOutput(e, i)| == 2 * i + 3 * TagLen
  {
    var s, n, k := Zeros(i), RoundNonce(i), Zeros(KeyLen);
    assert |e.encrypt(k, n, s, s)| == i + TagLen;
    assert |e.encrypt(k, n, s, [])| == i + TagLen;
    assert |e.encrypt(k, n, [], s)| == TagLen;
  }

  /** The accumulator contents after rounds `0 .. n-1`, in append order. */
  function Chain(e: Engine, n: nat): seq<Byte>
    requires LengthContract(e) && n <= 256
  {
    if n == 0 then [] else Chain(e, n - 1) + RoundOutput(e, n - 1)
  }

  /** After `n` rounds the write offset is `n*n + 47*n`, the sum of the round sizes. */
  lemma {:induction false} ChainLength(e: Engine, n: nat)
    requires LengthContract(e) && n <= 256
    ensures |Chain(e, n)| == n * n + 47 * n
  {
    if n > 0 {
      ChainLength(e, n - 1);
      RoundOutputLength(e, n - 1);
      assert n * n == (n - 1) * (n - 1) + 2 * (n - 1) + 1;
    }
  }

  /** The 128 rounds fill the 22,400-byte accumulator exactly: no gap, no overrun. */
  lemma AccumulatorExactlyFilled(e: Engine)
    requires LengthContract(e)
    ensures |Chain(e, Rounds)| == AccumulatorLen
  {
    ChainLength(e, Rounds);
  }

  /** Later rounds only append: the first `m` rounds' output is a prefix of the first `n` rounds'. */
  lemma {:induction false} ChainPrefix(e: Engine, m: nat, n: nat)
    requires LengthContract(e) && m <= n <= 256
    ensures |Chain(e, m)| <= |Chain(e, n)| && Chain(e, n)[..|Chain(e, m)|] == Chain(e, m)
  {
    if m < n {
      ChainPrefix(e, m, n - 1);
      assert Chain(e, n) == Chain(e, n - 1) + RoundOutput(e, n - 1);
    }
  }

  /**
   * Where round `i` lands in the accumulator once `total` rounds have run
   * (128 in the test): its `2*i + 48` bytes sit from offset `i*i + 47*i`.
   */
  lemma RoundLayout(e: Engine, i: nat, total: nat)
    requires LengthContract(e) && i < total <= 256
    ensures var acc, off := Chain(e, total), i * i + 47 * i;
      off + 2 * i + 3 * TagLen <= |acc| && acc[off .. off + 2 * i + 3 * TagLen] == RoundOutput(e, i)
  {
    var off, len := i * i + 47 * i, 2 * i + 3 * TagLen;
    ChainLength(e, i);
    RoundOutputLength(e, i);
    ChainPrefix(e, i + 1, total);
    var next := Chain(e, i + 1);
    assert next == Chain(e, i) + RoundOutput(e, i);
    SliceOfPrefix(Chain(e, total), next, off, off + len);
    assert next[off .. off + len] == RoundOutput(e, i);
  }

  /** A slice inside a known prefix reads the prefix. */
  lemma SliceOfPrefix(whole: seq<Byte>, p: seq<Byte>, lo: nat, hi: nat)
    requires |p| <= |whole| && whole[..|p|] == p && lo <= hi <= |p|
    ensures whole[lo..hi] == p[lo..hi]
  {
    forall k | 0 <= k < hi - lo
      ensures whole[lo..hi][k] == p[lo..hi][k]
    {
      assert whole[lo + k] == whole[..|p|][lo + k];
    }
  }

  /**
   * `memcpy( acc, out.data(), n ); acc += n;`: the first `n` bytes of `out`
   * are appended to the filled prefix of the accumulator.
   */
  method Append(accumulator: AlignedBuffer, acc: nat, out: AlignedBuffer, n: nat) returns (acc': nat)
    requires accumulator.data != out.data
    requires acc + n <= accumulator.Len() && n <= out.Len()
    modifies accumulator.data
    ensures acc' == acc + n
    ensures accumulator.Bytes()[..acc'] == old(accumulator.Bytes()[..acc]) + out.Bytes()[..n]
  {
    ghost var before := accumulator.Bytes();
    Memcpy(accumulator.data, acc, out.data, n);
    assert accumulator.Bytes() == before[..acc] + out.Bytes()[..n] + before[acc + n..];
    acc' := acc + n;
    assert accumulator.Bytes()[..acc'] ==
           (before[..acc] + out.Bytes()[..n] + before[acc + n..])[..acc'];
  }

  /**
   * One round of the loop: zero `S`, set the last nonce byte to `i`, run the
   * three encryptions and append their outputs.
   */
  method RunRound(e: Engine, ctx: AeContext, nonce: AlignedBuffer, accumulator: AlignedBuffer,
                  acc: nat, i: nat)
    returns (acc': nat)
    requires LengthContract(e) && ctx.ready && ctx.key == Zeros(KeyLen)
    requires i < Rounds && nonce.Len() == NonceLen && nonce.data != accumulator.data
    requires nonce.Bytes()[..NonceLen - 1] == Zeros(NonceLen - 1)
    requires acc + 2 * i + 3 * TagLen <= accumulator.Len()
    modifies nonce.data, accumulator.data
    ensures nonce.Bytes() == RoundNonce(i)
    ensures acc' == acc + 2 * i + 3 * TagLen
    ensures accumulator.Bytes()[..acc'] == old(accumulator.Bytes()[..acc]) + RoundOutput(e, i)
  {
    RoundOutputLength(e, i);
    var s := ZeroBuffer(i);
    SetRoundByte(nonce, i);

    var out := new AlignedBuffer(s.Len() + TagLen);
    ghost var filled := accumulator.Bytes()[..acc];
    var sb, nb := s.Bytes(), nonce.Bytes();
    ghost var a, b, c := e.encrypt(ctx.key, nb, sb, sb), e.encrypt(ctx.key, nb, sb, []), e.encrypt(ctx.key, nb, [], sb);
    assert a[..i + TagLen] == a && b[..i + TagLen] == b;

    // OCB-ENCRYPT(K,N,S,S)
    acc' := EncryptAppend(e, ctx, nb, sb, sb, out, accumulator, acc, s.Len() + TagLen);
    // OCB-ENCRYPT(K,N,<empty string>,S)
    acc' := EncryptAppend(e, ctx, nb, sb, [], out, accumulator, acc', s.Len() + TagLen);
    // OCB-ENCRYPT(K,N,S,<empty string>)
    acc' := EncryptAppend(e, ctx, nb, [], sb, out, accumulator, acc', TagLen);
    assert accumulator.Bytes()[..acc'] == filled + a + b + c[..TagLen];
  }

  /** `AlignedBuffer s( i ); memset( s.data(), 0, s.len() );` */
  method ZeroBuffer(len: nat) returns (s: AlignedBuffer)
    ensures fresh(s.data) && s.Bytes() == Zeros(len)
  {
    s := new AlignedBuffer(len);
    Memset(s.data, 0, s.Len());
  }

  /** `nonce[11] = i;` on a nonce whose other bytes are zero. */
  method SetRoundByte(nonce: AlignedBuffer, i: nat)
    requires i < 256 && nonce.Len() == NonceLen
    requires nonce.Bytes()[..NonceLen - 1] == Zeros(NonceLen - 1)
    modifies nonce.data
    ensures nonce.Bytes() == RoundNonce(i)
  {
    ghost var prefix := nonce.Bytes()[..NonceLen - 1];
    nonce.data[NonceLen - 1] := RoundByte(i);
    assert nonce.Bytes() == prefix + [RoundByte(i)];
  }

  /**
   * One encryption of a round: encrypt into `out` (asserting success) and
   * append its first `n` bytes to the accumulator.
   */
  method EncryptAppend(e: Engine, ctx: AeContext, nonce: seq<Byte>, pt: seq<Byte>, ad: seq<Byte>,
                       out: AlignedBuffer, accumulator: AlignedBuffer, acc: nat, n: nat)
    returns (acc': nat)
    requires LengthContract(e) && ctx.ready
    requires n <= |pt| + TagLen <= out.Len() && out.data != accumulator.data
    requires acc + n <= accumulator.Len()
    modifies out.data, accumulator.data
    ensures acc' == acc + n
    ensures accumulator.Bytes()[..acc'] == old(accumulator.Bytes()[..acc]) + e.encrypt(ctx.key, nonce, pt, ad)[..n]
  {
    var ret := ctx.Encrypt(e, nonce, pt, ad, out);
    assert 0 <= ret;  // fatal_assert( 0 <= ret )
    assert out.Bytes()[..n] == out.Bytes()[..ret][..n];
    acc' := Append(accumulator, acc, out, n);
  }

  /** The size bound that keeps every `memcpy` of the loop inside the accumulator. */
  lemma OffsetBound(i: nat)
    requires i < Rounds
    ensures (i + 1) * (i + 1) + 47 * (i + 1) == i * i + 47 * i + 2 * i + 3 * TagLen
    ensures (i + 1) * (i + 1) + 47 * (i + 1) <= AccumulatorLen
  {
    assert (i + 1) * (i + 1) <= 128 * (i + 1) <= 128 * 128;
  }

  /**
   * `test_iterative`: passes exactly when the tag of the all-zero nonce over
   * the filled accumulator (as associated data, with no plaintext) is the
   * published constant.
   */
  method TestIterative(e: Engine) returns (passed: bool)
    requires LengthContract(e)
    ensures passed <==> e.encrypt(Zeros(KeyLen), Zeros(NonceLen), [], Chain(e, Rounds)) == IterativeTag
  {
    var key := new AlignedBuffer(KeyLen);
    Memset(key.data, 0, KeyLen);
    assert key.Bytes() == Zeros(KeyLen);
    var ctx := new AeContext(key.Bytes());

    var nonce := new AlignedBuffer(NonceLen);
    Memset(nonce.data, 0, NonceLen);

    var accumulator := new AlignedBuffer(AccumulatorLen);
    FillAccumulator(e, ctx, nonce, accumulator);

    // OCB-ENCRYPT(K,N,C,<empty string>) with the nonce reset to all zeros
    var out := new AlignedBuffer(TagLen);
    Memset(nonce.data, 0, NonceLen);
    assert nonce.Bytes() == Zeros(NonceLen);
    var ret := ctx.Encrypt(e, nonce.Bytes(), [], accumulator.Bytes(), out);
    assert 0 <= ret;
    assert out.Bytes() == out.Bytes()[..ret];

    var correct := new AlignedBuffer.FromBytes(TagLen, IterativeTag);
    passed := Equal(out, correct);
    if !passed {
      return;  // fatal_assert: the run stops, the context is never cleared
    }
    ctx.Scrap();
  }

  /** The loop of `test_iterative`: 128 rounds fill the accumulator with `Chain(e, 128)`. */
  method FillAccumulator(e: Engine, ctx: AeContext, nonce: AlignedBuffer, accumulator: AlignedBuffer)
    requires LengthContract(e) && ctx.ready && ctx.key == Zeros(KeyLen)
    requires nonce.Len() == NonceLen && nonce.Bytes() == Zeros(NonceLen)
    requires accumulator.Len() == AccumulatorLen && nonce.data != accumulator.data
    modifies nonce.data, accumulator.data
    ensures accumulator.Bytes() == Chain(e, Rounds)
  {
    var acc: nat := 0;
    for i := 0 to Rounds
      invariant nonce.Bytes()[..NonceLen - 1] == Zeros(NonceLen - 1)
      invariant acc == i * i + 47 * i && acc <= AccumulatorLen
      invariant accumulator.Bytes()[..acc] == Chain(e, i)
    {
      OffsetBound(i);
      acc := RunRound(e, ctx, nonce, accumulator, acc, i);
    }
    AccumulatorExactlyFilled(e);
    assert accumulator.Bytes()[..acc] == accumulator.Bytes();
  }
}

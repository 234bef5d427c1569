/**
 * The AEAD engine the harness drives (`ae_init`, `ae_encrypt`, `ae_decrypt`,
 * `ae_clear` from ae.h). The OCB-AES computation itself is not modelled: an
 * engine is a pair of arbitrary functions, and the only thing the harness may
 * rely on is their length contract.
 */
module AeEngine {
  import opened Wrappers
  import opened AlignedBuffers

  const KeyLen: nat := 16
  const NonceLen: nat := 12
  const TagLen: nat := 16

  /** The value `ae_decrypt` returns when the tag does not verify. */
  const AeInvalid: int := -1

  /**
   * `encrypt(key, nonce, plaintext, assoc)` is ciphertext followed by the tag;
   * `decrypt(key, nonce, ciphertext, assoc)` is the recovered plaintext, or
   * `None` when authentication fails (`AE_INVALID`). Both are single-shot
   * (`AE_FINALIZE`) calls, so they depend on their arguments only.
   */
  datatype Engine = Engine(
    encrypt: (seq<Byte>, seq<Byte>, seq<Byte>, seq<Byte>) -> seq<Byte>,
    decrypt: (seq<Byte>, seq<Byte>, seq<Byte>, seq<Byte>) -> Option<seq<Byte>>)

  /**
   * The length contract: encryption adds exactly one tag; a successful
   * decryption removes exactly one tag.
   */
  ghost predicate LengthContract(e: Engine)
  {
    && (forall key, nonce, pt, ad :: |e.encrypt(key, nonce, pt, ad)| == |pt| + TagLen)
    && (forall key, nonce, ct, ad :: e.decrypt(key, nonce, ct, ad).Some? ==>
          |ct| >= TagLen && |e.decrypt(key, nonce, ct, ad).value| == |ct| - TagLen)
  }

  /** Writes `bytes` at the start of `out`, as the engine does with its output pointer. */
  method WriteOutput(out: array<Byte>, bytes: seq<Byte>)
    requires |bytes| <= out.Length
    modifies out
    ensures out[..] == bytes + old(out[|bytes|..])
  {
    forall k | 0 <= k < |bytes| {
      out[k] := bytes[k];
    }
  }

  /**
   * An `ae_ctx`: allocated and keyed by `get_ctx`, used for any number of
   * calls, then zeroised by `scrap_ctx`.
   */
  class AeContext {
    var key: seq<Byte>
    var ready: bool

    /**
     * `get_ctx( key )`: allocate `ae_ctx_sizeof()` bytes and `ae_init` them
     * with the key, `NONCE_LEN` and `TAG_LEN`; the harness asserts success,
     * which it gets because its keys are always `KEY_LEN` bytes.
     */
    constructor (key: seq<Byte>)
      requires |key| == KeyLen
      ensures this.key == key && ready
    {
      this.key := key;
      ready := true;
    }

    /** `scrap_ctx`: `ae_clear` zeroises the key material, then the storage is released. */
    method Scrap()
      requires ready
      modifies this
      ensures !ready && key == Zeros(|old(key)|)
    {
      key := Zeros(|key|);
      ready := false;
    }

    /**
     * `ae_encrypt( ctx, nonce, pt, pt_len, ad, ad_len, out, NULL, AE_FINALIZE )`:
     * writes ciphertext and tag at the start of `out` and returns their length.
     */
    method Encrypt(e: Engine, nonce: seq<Byte>, pt: seq<Byte>, ad: seq<Byte>, out: AlignedBuffer)
      returns (ret: int)
      requires ready && LengthContract(e)
      requires |pt| + TagLen <= out.Len()
      modifies out.data
      ensures ret == |pt| + TagLen
      ensures out.Bytes()[..ret] == e.encrypt(key, nonce, pt, ad)
      ensures out.Bytes()[ret..] == old(out.Bytes()[|pt| + TagLen..])
    {
      var sealed := e.encrypt(key, nonce, pt, ad);
      WriteOutput(out.data, sealed);
      ret := |sealed|;
    }

    /**
     * `ae_decrypt( ctx, nonce, ct, ct_len, ad, ad_len, out, NULL, AE_FINALIZE )`:
     * on success writes the plaintext at the start of `out` and returns its
     * length; otherwise returns `AE_INVALID`, and what `out` holds then is
     * unspecified (the harness never looks at it).
     */
    method Decrypt(e: Engine, nonce: seq<Byte>, ct: seq<Byte>, ad: seq<Byte>, out: AlignedBuffer)
      returns (ret: int)
      requires ready && LengthContract(e)
      requires |ct| >= TagLen && |ct| - TagLen <= out.Len()
      modifies out.data
      ensures e.decrypt(key, nonce, ct, ad).None? ==> ret == AeInvalid
      ensures e.decrypt(key, nonce, ct, ad).Some? ==>
                && ret == |ct| - TagLen
                && out.Bytes()[..ret] == e.decrypt(key, nonce, ct, ad).value
                && out.Bytes()[ret..] == old(out.Bytes()[|ct| - TagLen..])
    {
      var result := e.decrypt(key, nonce, ct, ad);
      match result {
        case Some(pt) =>
          WriteOutput(out.data, pt);
          ret := |pt|;
        case None =>
          ret := AeInvalid;
      }
    }
  }
}

/**
 * The byte regions of the OCB-AES test harness (src/tests/ocb-aes.cc):
 * `Crypto::AlignedBuffer`, the harness's `equal`, and the `memset` and
 * `memcpy` calls it makes on buffer contents.
 */
module AlignedBuffers {

  type Byte = bv8

  /** `n` zero bytes. */
  function Zeros(n: nat): (z: seq<Byte>)
    ensures |z| == n
    ensures forall k :: 0 <= k < n ==> z[k] == 0
  {
    seq(n, _ => 0)
  }

  /**
   * A fixed-length byte region. The region itself (`data`) never changes
   * after construction; its bytes are updated in place.
   */
  class AlignedBuffer {
    const data: array<Byte>

    /** `len()`: the length fixed at construction. */
    function Len(): nat
    {
      data.Length
    }

    /** The current contents. */
    function Bytes(): (s: seq<Byte>)
      reads data
      ensures |s| == Len()
    {
      data[..]
    }

    /** `AlignedBuffer( len )`: `len` bytes whose contents are not initialised. */
    constructor (len: nat)
      ensures Len() == len && fresh(data)
    {
      data := new Byte[len];
    }

    /** `AlignedBuffer( len, src )`: a copy of the first `len` bytes at `src`. */
    constructor FromBytes(len: nat, src: seq<Byte>)
      requires len <= |src|
      ensures Len() == len && fresh(data)
      ensures Bytes() == src[..len]
    {
      data := new Byte[len](k requires 0 <= k < len => src[k]);
    }
  }

  /** `a` and `b` agree on the indices `i .. k-1`. */
  predicate AgreeBetween(a: seq<Byte>, b: seq<Byte>, i: nat, k: nat)
    requires i <= k <= |a| && k <= |b|
  {
    forall j :: i <= j < k ==> a[j] == b[j]
  }

  /**
   * `memcmp` over the bytes `i .. n-1`: 0 exactly when they agree,
   * otherwise -1 or 1 by the first byte that differs (compared unsigned).
   */
  function Memcmp(a: seq<Byte>, b: seq<Byte>, i: nat, n: nat): (r: int)
    requires i <= n <= |a| && n <= |b|
    ensures -1 <= r <= 1
    ensures r == 0 <==> AgreeBetween(a, b, i, n)
    ensures r != 0 ==> exists k :: i <= k < n && AgreeBetween(a, b, i, k) && a[k] != b[k] && (r < 0 <==> a[k] < b[k])
    decreases n - i
  {
    if i == n then 0
    else if a[i] < b[i] then
      assert AgreeBetween(a, b, i, i);
      -1
    else if a[i] > b[i] then
      assert AgreeBetween(a, b, i, i);
      1
    else
      var r := Memcmp(a, b, i + 1, n);
      assert r != 0 ==> exists k :: i <= k < n && AgreeBetween(a, b, i, k) && a[k] != b[k] && (r < 0 <==> a[k] < b[k]) by {
        if r != 0 {
          var k :| i + 1 <= k < n && AgreeBetween(a, b, i + 1, k) && a[k] != b[k] && (r < 0 <==> a[k] < b[k]);
          assert AgreeBetween(a, b, i, k);
        }
      }
      r
  }

  /**
   * `equal( a, b )`: lengths first, then `memcmp` over the common length.
   * Buffers of different lengths are unequal, never an error.
   */
  predicate Equal(a: AlignedBuffer, b: AlignedBuffer)
    reads a.data, b.data
    ensures Equal(a, b) <==> a.Bytes() == b.Bytes()
    ensures a.Len() != b.Len() ==> !Equal(a, b)
  {
    a.Len() == b.Len() && Memcmp(a.Bytes(), b.Bytes(), 0, a.Len()) == 0
  }

  /** `memset( a, v, n )`: the first `n` bytes become `v`, the rest stay. */
  method Memset(a: array<Byte>, v: Byte, n: nat)
    requires n <= a.Length
    modifies a
    ensures a[..] == seq(n, _ => v) + old(a[n..])
  {
    forall k | 0 <= k < n {
      a[k] := v;
    }
  }

  /**
   * `memcpy( dst + at, src, n )` between distinct regions: `n` bytes land at
   * offset `at` and nothing else in `dst` changes.
   */
  method Memcpy(dst: array<Byte>, at: nat, src: array<Byte>, n: nat)
    requires dst != src
    requires at + n <= dst.Length && n <= src.Length
    modifies dst
    ensures dst[..] == old(dst[..at]) + src[..n] + old(dst[at + n..])
  {
    forall k | 0 <= k < n {
      dst[at + k] := src[k];
    }
  }
}

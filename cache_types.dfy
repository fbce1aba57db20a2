/** The declarations of cache.h: replacement schemes, lookup outcomes and cache blocks. */
module CacheTypes {

  /** Largest value of a 32-bit unsigned integer. */
  const U32_MAX: int := 0xFFFF_FFFF

  /** Every counter, tag, address and size of the cache is a `uint32_t`. */
  type u32 = x: int | 0 <= x <= U32_MAX

  /** `n_access++` on a `uint32_t`: wraps from the largest value back to 0. */
  function Increment(n: u32): (m: u32)
    ensures m == (n + 1) % (U32_MAX + 1)
  {
    if n == U32_MAX then 0 else n + 1
  }

  /** Incrementing a count kept modulo 2^32 keeps it modulo 2^32. */
  lemma IncrementModulo(n: u32, k: nat)
    requires n == k % (U32_MAX + 1)
    ensures Increment(n) == (k + 1) % (U32_MAX + 1)
  {
    var m := U32_MAX + 1;
    var q := k / m;
    assert k == q * m + n;
    assert k + 1 == q * m + (n + 1);
    if n == U32_MAX {
      assert k + 1 == (q + 1) * m;
    }
  }

  /** `n` incremented `k` times. */
  function IncrementBy(n: u32, k: nat): u32
    decreases k
  {
    if k == 0 then n else IncrementBy(Increment(n), k - 1)
  }

  /** Incrementing `k` times adds `k` modulo 2^32. */
  lemma {:induction false} IncrementByModulo(n: u32, k: nat)
    ensures IncrementBy(n, k) == (n + k) % (U32_MAX + 1)
    decreases k
  {
    if k > 0 {
      IncrementByModulo(Increment(n), k - 1);
      assert (Increment(n) + (k - 1)) % (U32_MAX + 1) == (n + k) % (U32_MAX + 1);
    }
  }

  /** The stand-in for a possibly-NULL pointer argument. */
  datatype Option<T> = None | Some(value: T)

  /** `enum replacement_schemes`: a closed choice of exactly three values. */
  datatype Scheme = LRU | FIFO | RANDOM

  /** `cache_lookup_t`. */
  datatype Lookup = Hit | Miss

  /** The numeric value of `cache_lookup_t`: `HIT = 0`, `MISS = 1`. */
  function Code(l: Lookup): (n: nat)
    ensures n <= 1
    ensures n == 1 <==> l == Miss
  {
    match l
    case Hit => 0
    case Miss => 1
  }

  /**
   * `cache_block_t`. The `uint8_t valid` flag is only ever set to 0 or 1 and
   * only compared with 0 and 1, so it is a `bool`; `data` is the opaque handle
   * the cache stores and returns without looking inside.
   */
  datatype Block<D> = Block(valid: bool, tag: u32, data: D, timeStamp: u32)
}

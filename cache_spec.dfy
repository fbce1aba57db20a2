/**
 * The behaviour of cache.c stated on values: the address mapping, the scan for
 * a hit, the choice of a victim and one complete read or write. The class in
 * cache.dfy is proved to change its state exactly as these functions say.
 */
module CacheSpec {
  import opened CacheTypes

  /** The three parameters `init_cache` stores and never changes afterwards. */
  datatype Config = Config(blocksPerSet: u32, size: u32, scheme: Scheme)

  /**
   * `num_sets = size / blocks_per_set` must be at least 1: otherwise the
   * division by `blocks_per_set` or the `% num_sets` of the mapping divides by zero.
   */
  predicate WellConfigured(c: Config)
  {
    1 <= c.blocksPerSet <= c.size
  }

  /** The two values of a cache's mutable state: its block array and `n_access`. */
  datatype CacheState<D> = CacheState(blocks: seq<Block<D>>, nAccess: u32)

  /** The block array has exactly `size` entries. */
  predicate Fits<D>(c: Config, st: CacheState<D>)
  {
    |st.blocks| == c.size
  }

  /** The state `init_cache` leaves: every block invalid with tag 0, no access yet. */
  predicate Cold<D>(c: Config, st: CacheState<D>)
  {
    && Fits(c, st)
    && st.nAccess == 0
    && forall i :: 0 <= i < |st.blocks| ==> !st.blocks[i].valid && st.blocks[i].tag == 0
  }

  /** `num_sets`. */
  function NumSets(c: Config): (n: u32)
    requires WellConfigured(c)
    ensures 1 <= n <= c.size
  {
    DivisionBounds(c.size, c.blocksPerSet);
    c.size / c.blocksPerSet
  }

  /** `set_addr`: the first block index of the window an address is looked up in. */
  function SetAddr(c: Config, addr: u32): (s: u32)
    requires WellConfigured(c)
    ensures s < NumSets(c)
  {
    addr % NumSets(c)
  }

  /** `tag`: the part of the address that is compared against a block's tag. */
  function TagOf(c: Config, addr: u32): (t: u32)
    requires WellConfigured(c)
    ensures t <= addr
  {
    addr / NumSets(c)
  }

  /**
   * One past the last block index of the window, `set_addr + blocks_per_set`.
   * The start is not multiplied by `blocks_per_set`, so windows of neighbouring
   * set addresses overlap.
   */
  function WindowEnd(c: Config, addr: u32): nat
    requires WellConfigured(c)
  {
    SetAddr(c, addr) + c.blocksPerSet
  }

  /** The hit test of both lookup loops: a valid block holding the tag. */
  predicate Holds<D>(b: Block<D>, tag: u32)
  {
    b.valid && b.tag == tag
  }

  /** The lowest index in `[lo, hi)` whose block holds `tag`, if any. */
  function FirstHit<D>(s: seq<Block<D>>, lo: nat, hi: nat, tag: u32): (r: Option<nat>)
    requires lo <= hi <= |s|
    ensures r.Some? ==> lo <= r.value < hi && Holds(s[r.value], tag)
    ensures r.Some? ==> forall j :: lo <= j < r.value ==> !Holds(s[j], tag)
    ensures r.None? <==> forall j :: lo <= j < hi ==> !Holds(s[j], tag)
    decreases hi - lo
  {
    if lo == hi then None
    else if Holds(s[lo], tag) then Some(lo)
    else FirstHit(s, lo + 1, hi, tag)
  }

  /** The lowest index in `[lo, hi)` whose block is invalid, if any. */
  function FirstInvalid<D>(s: seq<Block<D>>, lo: nat, hi: nat): (r: Option<nat>)
    requires lo <= hi <= |s|
    ensures r.Some? ==> lo <= r.value < hi && !s[r.value].valid
    ensures r.Some? ==> forall j :: lo <= j < r.value ==> s[j].valid
    ensures r.None? <==> forall j :: lo <= j < hi ==> s[j].valid
    decreases hi - lo
  {
    if lo == hi then None
    else if !s[lo].valid then Some(lo)
    else FirstInvalid(s, lo + 1, hi)
  }

  /** The lowest index among the blocks of `[lo, hi)` with the smallest timestamp. */
  function ArgMin<D>(s: seq<Block<D>>, lo: nat, hi: nat): (m: nat)
    requires lo < hi <= |s|
    ensures lo <= m < hi
    ensures forall j :: lo <= j < hi ==> s[m].timeStamp <= s[j].timeStamp
    ensures forall j :: lo <= j < m ==> s[m].timeStamp < s[j].timeStamp
    decreases hi - lo
  {
    if lo + 1 == hi then lo
    else
      var m := ArgMin(s, lo + 1, hi);
      if s[lo].timeStamp <= s[m].timeStamp then lo else m
  }

  /**
   * The rule `process_cache_miss` follows for the window `[lo, hi)`: the
   * first invalid block; otherwise, all blocks being valid, the first block
   * with the smallest timestamp, provided that timestamp is below
   * `0xFFFFFFFF` (the scan starts from `ts_min = 0xFFFFFFFF` and compares
   * with `<`); otherwise index 0, which lies outside the window unless `lo == 0`.
   */
  ghost predicate IsVictim<D>(s: seq<Block<D>>, lo: nat, hi: nat, v: nat)
    requires lo < hi <= |s|
  {
    || (lo <= v < hi && !s[v].valid && forall j :: lo <= j < v ==> s[j].valid)
    || (&& (forall j :: lo <= j < hi ==> s[j].valid)
        && lo <= v < hi
        && s[v].timeStamp < U32_MAX
        && (forall j :: lo <= j < hi ==> s[v].timeStamp <= s[j].timeStamp)
        && (forall j :: lo <= j < v ==> s[v].timeStamp < s[j].timeStamp))
    || (&& (forall j :: lo <= j < hi ==> s[j].valid && s[j].timeStamp == U32_MAX)
        && v == 0)
  }

  /** The block `process_cache_miss` overwrites for the window `[lo, hi)`. */
  function Victim<D>(s: seq<Block<D>>, lo: nat, hi: nat): (v: nat)
    requires lo < hi <= |s|
    ensures v < |s|
  {
    match FirstInvalid(s, lo, hi)
    case Some(i) => i
    case None =>
      var m := ArgMin(s, lo, hi);
      if s[m].timeStamp < U32_MAX then m else 0
  }

  /** `Victim` picks the block the rule `IsVictim` describes. */
  lemma VictimFollowsRule<D>(s: seq<Block<D>>, lo: nat, hi: nat)
    requires lo < hi <= |s|
    ensures IsVictim(s, lo, hi, Victim(s, lo, hi))
  {
  }

  /** The rule picks exactly one block, so any index that follows it is the victim. */
  lemma VictimUnique<D>(s: seq<Block<D>>, lo: nat, hi: nat, v: nat)
    requires lo < hi <= |s|
    requires IsVictim(s, lo, hi, v)
    ensures v == Victim(s, lo, hi)
  {
    VictimFollowsRule(s, lo, hi);
  }

  /** What one read or write did: its outcome, the block it used and the new state. */
  datatype AccessResult<D> = AccessResult(outcome: Lookup, index: nat, state: CacheState<D>)

  /** Replaces the data of block `i` when the caller's pointer is not NULL. */
  function Store<D>(st: CacheState<D>, i: nat, put: Option<D>): CacheState<D>
    requires i < |st.blocks|
  {
    match put
    case Some(d) => st.(blocks := st.blocks[i := st.blocks[i].(data := d)])
    case None => st
  }

  /**
   * Storing the caller's data touches only the data of block `i`, and only
   * when the pointer is not NULL: flags, tags, timestamps, the other blocks
   * and `n_access` stay as they were.
   */
  lemma StoreFrame<D>(st: CacheState<D>, i: nat, put: Option<D>)
    requires i < |st.blocks|
    ensures var r := Store(st, i, put);
            && |r.blocks| == |st.blocks| && r.nAccess == st.nAccess
            && r.blocks[i].valid == st.blocks[i].valid
            && r.blocks[i].tag == st.blocks[i].tag
            && r.blocks[i].timeStamp == st.blocks[i].timeStamp
            && r.blocks[i].data == (if put.Some? then put.value else st.blocks[i].data)
            && forall j :: 0 <= j < |st.blocks| && j != i ==> r.blocks[j] == st.blocks[j]
  {
  }

  /**
   * One call of `read_block_addr` (`put == None`) or `write_block_addr` with
   * the caller's `block_data` (`None` for NULL). On a hit the matched block's
   * timestamp is refreshed under LRU only and `n_access` is left alone; on a
   * miss the victim is refilled with `load(addr)` (for a write too), the
   * caller's data is stored over it, and `n_access` is incremented.
   */
  function AccessBlock<D>(c: Config, load: u32 -> D, st: CacheState<D>, addr: u32, put: Option<D>)
    : (r: AccessResult<D>)
    requires WellConfigured(c) && Fits(c, st)
    ensures Fits(c, r.state) && r.index < c.size
  {
    WindowInBounds(c, addr);
    var lo, hi, tag := SetAddr(c, addr), WindowEnd(c, addr), TagOf(c, addr);
    match FirstHit(st.blocks, lo, hi, tag)
    case Some(i) =>
      var touched :=
        if c.scheme == LRU then st.(blocks := st.blocks[i := st.blocks[i].(timeStamp := st.nAccess)])
        else st;
      AccessResult(Hit, i, Store(touched, i, put))
    case None =>
      var v := Victim(st.blocks, lo, hi);
      var filled := st.blocks[v := Block(true, tag, load(addr), st.nAccess)];
      AccessResult(Miss, v, Store(CacheState(filled, Increment(st.nAccess)), v, put))
  }

  /**
   * Every scanned index is inside the block array and the window end does not
   * overflow 32 bits: `set_addr + blocks_per_set <= (num_sets - 1) + blocks_per_set
   * <= num_sets * blocks_per_set <= size`, as `(num_sets - 1) * (blocks_per_set - 1) >= 0`.
   */
  lemma WindowInBounds(c: Config, addr: u32)
    requires WellConfigured(c)
    ensures WindowEnd(c, addr) <= c.size
  {
    SetWindowInBounds(c, SetAddr(c, addr));
  }

  /** The window starting at any set address below `num_sets` ends inside the array. */
  lemma SetWindowInBounds(c: Config, setAddr: nat)
    requires WellConfigured(c) && setAddr < NumSets(c)
    ensures setAddr + c.blocksPerSet <= c.size
  {
    var n: int, b: int := NumSets(c), c.blocksPerSet;
    DivisionBounds(c.size, c.blocksPerSet);
    assert (n - 1) * (b - 1) >= 0 by { MulNonNegative(n - 1, b - 1); }
    assert n * b == (n - 1) * (b - 1) + n + b - 1;
  }

  lemma MulNonNegative(x: int, y: int)
    requires x >= 0 && y >= 0
    ensures x * y >= 0
  {
  }

  /** Integer division of `a` by `b` with `1 <= b <= a`. */
  lemma DivisionBounds(a: nat, b: nat)
    requires 1 <= b <= a
    ensures 1 <= a / b <= a
    ensures a / b * b <= a
  {
    var q, r := a / b, a % b;
    assert a == q * b + r;
    assert q != 0;
    assert q * b >= q by { MulMonotone(q, b); }
  }

  lemma MulMonotone(q: nat, b: nat)
    requires b >= 1
    ensures q * b >= q
  {
    assert q * b == q * (b - 1) + q;
    MulNonNegative(q, b - 1);
  }
}

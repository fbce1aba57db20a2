/** Properties of a single read or write, stated on `CacheSpec.AccessBlock`. */
module CacheLemmas {
  import opened CacheTypes
  import opened CacheSpec

  /** The mapping splits an address into a set address and a tag that recombine to it. */
  lemma MappingRoundTrip(c: Config, addr: u32)
    requires WellConfigured(c)
    ensures TagOf(c, addr) * NumSets(c) + SetAddr(c, addr) == addr
  {
  }

  /** Two addresses with the same set address and tag are the same address. */
  lemma MappingInjective(c: Config, a: u32, b: u32)
    requires WellConfigured(c)
    requires SetAddr(c, a) == SetAddr(c, b) && TagOf(c, a) == TagOf(c, b)
    ensures a == b
  {
    MappingRoundTrip(c, a);
    MappingRoundTrip(c, b);
  }

  /** An access hits exactly when some valid block of its window holds its tag. */
  lemma HitIffPresent<D>(c: Config, load: u32 -> D, st: CacheState<D>, addr: u32, put: Option<D>)
    requires WellConfigured(c) && Fits(c, st)
    ensures WindowEnd(c, addr) <= |st.blocks|
    ensures AccessBlock(c, load, st, addr, put).outcome == Hit <==>
            exists j :: SetAddr(c, addr) <= j < WindowEnd(c, addr) && Holds(st.blocks[j], TagOf(c, addr))
  {
    WindowInBounds(c, addr);
    var lo, hi, tag := SetAddr(c, addr), WindowEnd(c, addr), TagOf(c, addr);
    var found := FirstHit(st.blocks, lo, hi, tag);
    if found.Some? {
      assert Holds(st.blocks[found.value], tag);
    }
  }

  /**
   * On a HIT only the first matching block of the window changes; it keeps
   * its valid flag and tag, takes `n_access` as its timestamp only under
   * LRU, and takes the caller's data only when given; `n_access` is unchanged.
   */
  lemma HitFrame<D>(c: Config, load: u32 -> D, st: CacheState<D>, addr: u32, put: Option<D>)
    requires WellConfigured(c) && Fits(c, st)
    requires AccessBlock(c, load, st, addr, put).outcome == Hit
    ensures WindowEnd(c, addr) <= |st.blocks|
    ensures var r := AccessBlock(c, load, st, addr, put);
            var i, tag := r.index, TagOf(c, addr);
            && SetAddr(c, addr) <= i < WindowEnd(c, addr)
            && Holds(st.blocks[i], tag)
            && (forall j :: SetAddr(c, addr) <= j < i ==> !Holds(st.blocks[j], tag))
            && r.state.blocks[i].valid == st.blocks[i].valid
            && r.state.blocks[i].tag == st.blocks[i].tag
            && r.state.blocks[i].timeStamp == (if c.scheme == LRU then st.nAccess else st.blocks[i].timeStamp)
            && r.state.blocks[i].data == (if put.Some? then put.value else st.blocks[i].data)
            && (forall j :: 0 <= j < |st.blocks| && j != i ==> r.state.blocks[j] == st.blocks[j])
            && r.state.nAccess == st.nAccess
  {
    WindowInBounds(c, addr);
  }

  /**
   * On a MISS no block of the window held the tag; only the victim changes,
   * becoming valid with the tag, the pre-call `n_access` as its timestamp and
   * `load(addr)` as its data unless the caller supplied data; `n_access` is
   * incremented (modulo 2^32).
   */
  lemma MissFrame<D>(c: Config, load: u32 -> D, st: CacheState<D>, addr: u32, put: Option<D>)
    requires WellConfigured(c) && Fits(c, st)
    requires AccessBlock(c, load, st, addr, put).outcome == Miss
    ensures WindowEnd(c, addr) <= |st.blocks|
    ensures var r := AccessBlock(c, load, st, addr, put);
            var lo, hi, tag := SetAddr(c, addr), WindowEnd(c, addr), TagOf(c, addr);
            && (forall j :: lo <= j < hi ==> !Holds(st.blocks[j], tag))
            && r.index == Victim(st.blocks, lo, hi)
            && r.state.blocks[r.index] ==
                 Block(true, tag, if put.Some? then put.value else load(addr), st.nAccess)
            && (forall j :: 0 <= j < |st.blocks| && j != r.index ==> r.state.blocks[j] == st.blocks[j])
            && r.state.nAccess == Increment(st.nAccess)
  {
    WindowInBounds(c, addr);
  }

  /** One access adds its outcome's code to `n_access`: 1 for a miss, 0 for a hit. */
  lemma CounterStep<D>(c: Config, load: u32 -> D, st: CacheState<D>, addr: u32, put: Option<D>)
    requires WellConfigured(c) && Fits(c, st)
    ensures var r := AccessBlock(c, load, st, addr, put);
            r.state.nAccess == if r.outcome == Miss then Increment(st.nAccess) else st.nAccess
  {
  }

  /**
   * The block a miss refills lies in the window when the window has an
   * invalid block or a timestamp below `0xFFFFFFFF`; when every block of the
   * window is valid with timestamp `0xFFFFFFFF` it is block 0, which is in
   * the window only when the set address is 0.
   */
  lemma MissIndexInWindow<D>(c: Config, load: u32 -> D, st: CacheState<D>, addr: u32, put: Option<D>)
    requires WellConfigured(c) && Fits(c, st)
    requires AccessBlock(c, load, st, addr, put).outcome == Miss
    ensures WindowEnd(c, addr) <= |st.blocks|
    ensures var r := AccessBlock(c, load, st, addr, put);
            var lo, hi := SetAddr(c, addr), WindowEnd(c, addr);
            && ((exists j :: lo <= j < hi && (!st.blocks[j].valid || st.blocks[j].timeStamp < U32_MAX)) ==>
                  lo <= r.index < hi)
            && ((forall j :: lo <= j < hi ==> st.blocks[j].valid && st.blocks[j].timeStamp == U32_MAX) ==>
                  r.index == 0)
  {
    WindowInBounds(c, addr);
    var lo, hi := SetAddr(c, addr), WindowEnd(c, addr);
    var v := Victim(st.blocks, lo, hi);
    assert IsVictim(st.blocks, lo, hi, v);
  }

  /**
   * On a freshly initialised cache every block is invalid, so any first
   * access misses and fills the first block of its window.
   */
  lemma ColdStart<D>(c: Config, load: u32 -> D, st: CacheState<D>, addr: u32, put: Option<D>)
    requires WellConfigured(c) && Cold(c, st)
    ensures var r := AccessBlock(c, load, st, addr, put);
            r.outcome == Miss && r.index == SetAddr(c, addr)
  {
    WindowInBounds(c, addr);
    var lo, hi := SetAddr(c, addr), WindowEnd(c, addr);
    assert !st.blocks[lo].valid;
    var v := Victim(st.blocks, lo, hi);
    assert IsVictim(st.blocks, lo, hi, v);
  }

  /**
   * Repeating an access whose block landed in its window hits that same
   * block; a repeated read then returns the data the first access left there.
   */
  lemma RepeatHits<D>(c: Config, load: u32 -> D, st: CacheState<D>, addr: u32, put: Option<D>, put2: Option<D>)
    requires WellConfigured(c) && Fits(c, st)
    requires SetAddr(c, addr) <= AccessBlock(c, load, st, addr, put).index < WindowEnd(c, addr)
    ensures var r1 := AccessBlock(c, load, st, addr, put);
            var r2 := AccessBlock(c, load, r1.state, addr, put2);
            && r2.outcome == Hit
            && r2.index == r1.index
            && (put2.None? ==> r2.state.blocks[r2.index].data == r1.state.blocks[r1.index].data)
  {
    WindowInBounds(c, addr);
    var lo, hi, tag := SetAddr(c, addr), WindowEnd(c, addr), TagOf(c, addr);
    var r1 := AccessBlock(c, load, st, addr, put);
    var i := r1.index;
    if r1.outcome == Hit {
      HitFrame(c, load, st, addr, put);
    } else {
      MissFrame(c, load, st, addr, put);
    }
    assert Holds(r1.state.blocks[i], tag);
    assert forall j :: lo <= j < i ==> !Holds(r1.state.blocks[j], tag);
    assert FirstHit(r1.state.blocks, lo, hi, tag) == Some(i);
  }

  /**
   * Conversely, a valid block holding the tag with none before it in the
   * window is hit; under LRU its timestamp becomes `n_access`.
   */
  lemma HitAt<D>(c: Config, load: u32 -> D, st: CacheState<D>, addr: u32, put: Option<D>, i: nat)
    requires WellConfigured(c) && Fits(c, st)
    requires SetAddr(c, addr) <= i < WindowEnd(c, addr) <= |st.blocks|
    requires Holds(st.blocks[i], TagOf(c, addr))
    requires forall j :: SetAddr(c, addr) <= j < i ==> !Holds(st.blocks[j], TagOf(c, addr))
    ensures AccessBlock(c, load, st, addr, put) ==
            AccessResult(Hit, i, Store(if c.scheme == LRU then
                                         st.(blocks := st.blocks[i := st.blocks[i].(timeStamp := st.nAccess)])
                                       else st, i, put))
  {
    assert FirstHit(st.blocks, SetAddr(c, addr), WindowEnd(c, addr), TagOf(c, addr)) == Some(i);
  }

  /**
   * Conversely, when no block of the window holds the tag, the access misses
   * and refills whichever block the victim rule selects.
   */
  lemma MissAt<D>(c: Config, load: u32 -> D, st: CacheState<D>, addr: u32, put: Option<D>, v: nat)
    requires WellConfigured(c) && Fits(c, st)
    requires SetAddr(c, addr) < WindowEnd(c, addr) <= |st.blocks|
    requires forall j :: SetAddr(c, addr) <= j < WindowEnd(c, addr) ==> !Holds(st.blocks[j], TagOf(c, addr))
    requires IsVictim(st.blocks, SetAddr(c, addr), WindowEnd(c, addr), v)
    ensures AccessBlock(c, load, st, addr, put) ==
            AccessResult(Miss, v, Store(CacheState(st.blocks[v := Block(true, TagOf(c, addr), load(addr), st.nAccess)],
                                                   Increment(st.nAccess)), v, put))
  {
    VictimUnique(st.blocks, SetAddr(c, addr), WindowEnd(c, addr), v);
  }

  /** FIFO and RANDOM are the same access: only LRU is ever tested. */
  lemma NonLruSchemesAgree<D>(c: Config, d: Config, load: u32 -> D, st: CacheState<D>, addr: u32, put: Option<D>)
    requires WellConfigured(c) && Fits(c, st)
    requires d.blocksPerSet == c.blocksPerSet && d.size == c.size
    requires c.scheme != LRU && d.scheme != LRU
    ensures WellConfigured(d) && Fits(d, st)
    ensures AccessBlock(c, load, st, addr, put) == AccessBlock(d, load, st, addr, put)
  {
  }
}

/**
 * Short concrete runs: the two replacement orders on one set of two blocks,
 * and what the overlapping windows of main.c's configuration let happen.
 */
module CacheScenarios {
  import opened CacheTypes
  import opened CacheSpec
  import opened CacheLemmas
  import opened CacheSnapshots
  import opened MainTrace

  /** One set of two blocks: every address maps to set 0, and its tag is the address itself. */
  function OneSet(scheme: Scheme): (c: Config)
    ensures WellConfigured(c) && NumSets(c) == 1
  {
    Config(2, 2, scheme)
  }

  /**
   * Under LRU, reading A, B, A, C (addresses 0, 1, 0, 2) misses, misses,
   * hits and misses, and the last miss evicts B, the block touched least
   * recently, keeping A.
   */
  lemma LruEvictsLeastRecentlyUsed<D>(load: u32 -> D, st: CacheState<D>)
    requires Cold(OneSet(LRU), st)
    ensures var c := OneSet(LRU);
            var r1 := AccessBlock(c, load, st, 0, None);
            var r2 := AccessBlock(c, load, r1.state, 1, None);
            var r3 := AccessBlock(c, load, r2.state, 0, None);
            var r4 := AccessBlock(c, load, r3.state, 2, None);
            && r1.outcome == Miss && r2.outcome == Miss && r3.outcome == Hit && r4.outcome == Miss
            && Holds(r3.state.blocks[1], 1) && r4.index == 1
            && Holds(r4.state.blocks[0], 0) && Holds(r4.state.blocks[1], 2)
  {
    var c := OneSet(LRU);
    var s0 := Snapshot(0, [Empty, Empty]);
    ShowsAfterMiss(c, load, st, s0, 0, 0);
    var r1 := AccessBlock(c, load, st, 0, None);
    var s1 := Snapshot(1, [Full(0, 0), Empty]);
    assert s1 == Snapshot(Increment(s0.nAccess), s0.slots[0 := Full(0, 0)]);
    ShowsAfterMiss(c, load, r1.state, s1, 1, 1);
    var r2 := AccessBlock(c, load, r1.state, 1, None);
    var s2 := Snapshot(2, [Full(0, 0), Full(1, 1)]);
    assert s2 == Snapshot(Increment(s1.nAccess), s1.slots[1 := Full(1, 1)]);
    ShowsAfterHit(c, load, r2.state, s2, 0, 0);
    var r3 := AccessBlock(c, load, r2.state, 0, None);
    var s3 := Snapshot(2, [Full(0, 2), Full(1, 1)]);
    assert s3 == Snapshot(s2.nAccess, s2.slots[0 := Full(0, 2)]);
    ShowsAfterMiss(c, load, r3.state, s3, 2, 1);
    var r4 := AccessBlock(c, load, r3.state, 2, None);
    assert Matches(r4.state.blocks[0], Full(0, 2));
  }

  /**
   * Under FIFO the same reads evict A, the block filled first, although A
   * was hit after B was filled: a hit does not refresh the timestamp.
   */
  lemma FifoEvictsFirstFilled<D>(load: u32 -> D, st: CacheState<D>)
    requires Cold(OneSet(FIFO), st)
    ensures var c := OneSet(FIFO);
            var r1 := AccessBlock(c, load, st, 0, None);
            var r2 := AccessBlock(c, load, r1.state, 1, None);
            var r3 := AccessBlock(c, load, r2.state, 0, None);
            var r4 := AccessBlock(c, load, r3.state, 2, None);
            && r1.outcome == Miss && r2.outcome == Miss && r3.outcome == Hit && r4.outcome == Miss
            && Holds(r3.state.blocks[0], 0) && r4.index == 0
            && Holds(r4.state.blocks[0], 2) && Holds(r4.state.blocks[1], 1)
  {
    var c := OneSet(FIFO);
    var s0 := Snapshot(0, [Empty, Empty]);
    ShowsAfterMiss(c, load, st, s0, 0, 0);
    var r1 := AccessBlock(c, load, st, 0, None);
    var s1 := Snapshot(1, [Full(0, 0), Empty]);
    assert s1 == Snapshot(Increment(s0.nAccess), s0.slots[0 := Full(0, 0)]);
    ShowsAfterMiss(c, load, r1.state, s1, 1, 1);
    var r2 := AccessBlock(c, load, r1.state, 1, None);
    var s2 := Snapshot(2, [Full(0, 0), Full(1, 1)]);
    assert s2 == Snapshot(Increment(s1.nAccess), s1.slots[1 := Full(1, 1)]);
    ShowsAfterHitKept(c, load, r2.state, s2, 0, 0);
    var r3 := AccessBlock(c, load, r2.state, 0, None);
    ShowsAfterMiss(c, load, r3.state, s2, 2, 0);
    var r4 := AccessBlock(c, load, r3.state, 2, None);
    assert Matches(r4.state.blocks[1], Full(1, 1));
  }

  /**
   * Under LRU a hit stamps `n_access` without incrementing it, so once
   * `n_access` is `0xFFFFFFFF` two hits stamp the whole window [1, 3) with
   * `0xFFFFFFFF` before any wrap. A read of address 1 then misses into block
   * 0, outside its window, and repeating that read misses again.
   */
  lemma RepeatMissesAtLastStamp<D>(load: u32 -> D, st: CacheState<D>)
    requires Fits(Config(2, 4, LRU), st)
    requires Shows(st, Snapshot(U32_MAX, [Empty, Full(5, 0), Full(7, 0), Empty]))
    ensures var c := Config(2, 4, LRU);
            var r1 := AccessBlock(c, load, st, 11, None);
            var r2 := AccessBlock(c, load, r1.state, 15, None);
            var r3 := AccessBlock(c, load, r2.state, 1, None);
            var r4 := AccessBlock(c, load, r3.state, 1, None);
            && r1.outcome == Hit && r1.index == 1
            && r2.outcome == Hit && r2.index == 2
            && r2.state.nAccess == U32_MAX
            && r3.outcome == Miss && r3.index == 0
            && r3.index < SetAddr(c, 1)
            && r4.outcome == Miss && r4.index == 0
  {
    var c := Config(2, 4, LRU);
    var s0 := Snapshot(U32_MAX, [Empty, Full(5, 0), Full(7, 0), Empty]);
    ShowsAfterHit(c, load, st, s0, 11, 1);
    var r1 := AccessBlock(c, load, st, 11, None);
    var s1 := Snapshot(U32_MAX, [Empty, Full(5, U32_MAX), Full(7, 0), Empty]);
    assert s1 == Snapshot(s0.nAccess, s0.slots[1 := Full(5, U32_MAX)]);
    ShowsAfterHit(c, load, r1.state, s1, 15, 2);
    var r2 := AccessBlock(c, load, r1.state, 15, None);
    var s2 := Snapshot(U32_MAX, [Empty, Full(5, U32_MAX), Full(7, U32_MAX), Empty]);
    assert s2 == Snapshot(s1.nAccess, s1.slots[2 := Full(7, U32_MAX)]);
    ShowsAfterMiss(c, load, r2.state, s2, 1, 0);
    var r3 := AccessBlock(c, load, r2.state, 1, None);
    var s3 := Snapshot(0, [Full(0, U32_MAX), Full(5, U32_MAX), Full(7, U32_MAX), Empty]);
    assert s3 == Snapshot(Increment(s2.nAccess), s2.slots[0 := Full(0, U32_MAX)]);
    ShowsAfterMiss(c, load, r3.state, s3, 1, 0);
  }

  /**
   * Under main.c's configuration, reading address 1 fills block 1, and a
   * following read of address 0 hits block 1 and returns the data loaded for
   * address 1: both addresses have tag 0 and block 1 lies in both windows.
   */
  lemma AliasedRead<D>(load: u32 -> D, st: CacheState<D>)
    requires Cold(MainConfig, st)
    ensures var r1 := AccessBlock(MainConfig, load, st, 1, None);
            var r2 := AccessBlock(MainConfig, load, r1.state, 0, None);
            && r1.outcome == Miss && r1.index == 1
            && r2.outcome == Hit && r2.index == 1
            && r2.state.blocks[r2.index].data == load(1)
  {
    var c := MainConfig;
    assert !st.blocks[1].valid;
    MissAt(c, load, st, 1, None, 1);
    var r1 := AccessBlock(c, load, st, 1, None);
    assert !r1.state.blocks[0].valid;
    HitAt(c, load, r1.state, 0, None, 1);
  }

  /**
   * Reading addresses 0 and 1 leaves two valid blocks with tag 0 in the
   * window [0, 2) of address 0: a window can hold the same tag twice.
   */
  lemma DuplicateTags<D>(load: u32 -> D, st: CacheState<D>)
    requires Cold(MainConfig, st)
    ensures var r1 := AccessBlock(MainConfig, load, st, 0, None);
            var r2 := AccessBlock(MainConfig, load, r1.state, 1, None);
            && SetAddr(MainConfig, 0) == 0 && WindowEnd(MainConfig, 0) == 2
            && Holds(r2.state.blocks[0], 0) && Holds(r2.state.blocks[1], 0)
  {
    var c := MainConfig;
    assert !st.blocks[0].valid;
    MissAt(c, load, st, 0, None, 0);
    var r1 := AccessBlock(c, load, st, 0, None);
    assert !r1.state.blocks[1].valid;
    MissAt(c, load, r1.state, 1, None, 1);
  }
}

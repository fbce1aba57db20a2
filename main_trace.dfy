/**
 * The driver of main.c: a cache of 8 blocks, 2 blocks per set, LRU, read at
 * the 23 addresses of its `access` table from a freshly initialised state.
 * Each step is checked against a snapshot of the valid flags, tags and
 * timestamps the cache holds after it.
 */
module MainTrace {
  import opened CacheTypes
  import opened CacheSpec
  import opened CacheLemmas
  import opened CacheTrace
  import opened CacheSnapshots

  /** `cache_new(8, 2, LRU)`. */
  const MainConfig: Config := Config(2, 8, LRU)

  /** The `access` table up to its `-1` terminator. */
  const MainAccesses: seq<u32> := [0, 3, 5, 7, 7, 1, 2, 8, 3, 0, 4, 2, 1, 4, 5, 3, 8, 5, 2, 5, 3, 5, 2]

  /** The outcome of each read, as the `misses` table records it. */
  const MainOutcomes: seq<Lookup> :=
    [Miss, Miss, Miss, Miss, Hit, Miss, Hit, Miss, Hit, Miss, Miss, Hit,
     Hit, Hit, Miss, Hit, Miss, Hit, Hit, Hit, Hit, Hit, Hit]

  /** The block each read hits or refills. */
  const MainIndices: seq<nat> := [0, 3, 1, 4, 4, 2, 2, 0, 3, 1, 0, 2, 1, 0, 1, 3, 0, 1, 2, 1, 3, 1, 2]

  /** The state before the first read and after each of the 23 reads. */
  const MainSnapshots: seq<Snapshot> := [
    Snapshot(0, [Empty, Empty, Empty, Empty, Empty, Empty, Empty, Empty]),
    Snapshot(1, [Full(0, 0), Empty, Empty, Empty, Empty, Empty, Empty, Empty]),
    Snapshot(2, [Full(0, 0), Empty, Empty, Full(0, 1), Empty, Empty, Empty, Empty]),
    Snapshot(3, [Full(0, 0), Full(1, 2), Empty, Full(0, 1), Empty, Empty, Empty, Empty]),
    Snapshot(4, [Full(0, 0), Full(1, 2), Empty, Full(0, 1), Full(1, 3), Empty, Empty, Empty]),
    Snapshot(4, [Full(0, 0), Full(1, 2), Empty, Full(0, 1), Full(1, 4), Empty, Empty, Empty]),
    Snapshot(5, [Full(0, 0), Full(1, 2), Full(0, 4), Full(0, 1), Full(1, 4), Empty, Empty, Empty]),
    Snapshot(5, [Full(0, 0), Full(1, 2), Full(0, 5), Full(0, 1), Full(1, 4), Empty, Empty, Empty]),
    Snapshot(6, [Full(2, 5), Full(1, 2), Full(0, 5), Full(0, 1), Full(1, 4), Empty, Empty, Empty]),
    Snapshot(6, [Full(2, 5), Full(1, 2), Full(0, 5), Full(0, 6), Full(1, 4), Empty, Empty, Empty]),
    Snapshot(7, [Full(2, 5), Full(0, 6), Full(0, 5), Full(0, 6), Full(1, 4), Empty, Empty, Empty]),
    Snapshot(8, [Full(1, 7), Full(0, 6), Full(0, 5), Full(0, 6), Full(1, 4), Empty, Empty, Empty]),
    Snapshot(8, [Full(1, 7), Full(0, 6), Full(0, 8), Full(0, 6), Full(1, 4), Empty, Empty, Empty]),
    Snapshot(8, [Full(1, 7), Full(0, 8), Full(0, 8), Full(0, 6), Full(1, 4), Empty, Empty, Empty]),
    Snapshot(8, [Full(1, 8), Full(0, 8), Full(0, 8), Full(0, 6), Full(1, 4), Empty, Empty, Empty]),
    Snapshot(9, [Full(1, 8), Full(1, 8), Full(0, 8), Full(0, 6), Full(1, 4), Empty, Empty, Empty]),
    Snapshot(9, [Full(1, 8), Full(1, 8), Full(0, 8), Full(0, 9), Full(1, 4), Empty, Empty, Empty]),
    Snapshot(10, [Full(2, 9), Full(1, 8), Full(0, 8), Full(0, 9), Full(1, 4), Empty, Empty, Empty]),
    Snapshot(10, [Full(2, 9), Full(1, 10), Full(0, 8), Full(0, 9), Full(1, 4), Empty, Empty, Empty]),
    Snapshot(10, [Full(2, 9), Full(1, 10), Full(0, 10), Full(0, 9), Full(1, 4), Empty, Empty, Empty]),
    Snapshot(10, [Full(2, 9), Full(1, 10), Full(0, 10), Full(0, 9), Full(1, 4), Empty, Empty, Empty]),
    Snapshot(10, [Full(2, 9), Full(1, 10), Full(0, 10), Full(0, 10), Full(1, 4), Empty, Empty, Empty]),
    Snapshot(10, [Full(2, 9), Full(1, 10), Full(0, 10), Full(0, 10), Full(1, 4), Empty, Empty, Empty]),
    Snapshot(10, [Full(2, 9), Full(1, 10), Full(0, 10), Full(0, 10), Full(1, 4), Empty, Empty, Empty])
  ]

  /** Read `k` of the run, from a state showing snapshot `k`, does what the tables say. */
  ghost predicate MainStepHolds<D>(load: u32 -> D, st: CacheState<D>, k: nat)
    requires k < |MainAccesses| && Fits(MainConfig, st)
  {
    var r := AccessBlock(MainConfig, load, st, MainAccesses[k], None);
    && r.outcome == MainOutcomes[k]
    && r.index == MainIndices[k]
    && Shows(r.state, MainSnapshots[k + 1])
  }

  /**
   * One lemma per read: snapshot `k + 1` is snapshot `k` with the block the
   * read uses restamped (a hit) or refilled (a miss), and the generic snapshot
   * lemmas of CacheSnapshots show the read takes the cache there.
   */
  lemma MainStep0<D>(load: u32 -> D, st: CacheState<D>)
    requires Fits(MainConfig, st) && Shows(st, MainSnapshots[0])
    ensures MainStepHolds(load, st, 0)
  {
    assert MainSnapshots[1] == Snapshot(Increment(MainSnapshots[0].nAccess), MainSnapshots[0].slots[0 := Full(0, 0)]);
    ShowsAfterMiss(MainConfig, load, st, MainSnapshots[0], 0, 0);
  }

  lemma MainStep1<D>(load: u32 -> D, st: CacheState<D>)
    requires Fits(MainConfig, st) && Shows(st, MainSnapshots[1])
    ensures MainStepHolds(load, st, 1)
  {
    assert MainSnapshots[2] == Snapshot(Increment(MainSnapshots[1].nAccess), MainSnapshots[1].slots[3 := Full(0, 1)]);
    ShowsAfterMiss(MainConfig, load, st, MainSnapshots[1], 3, 3);
  }

  lemma MainStep2<D>(load: u32 -> D, st: CacheState<D>)
    requires Fits(MainConfig, st) && Shows(st, MainSnapshots[2])
    ensures MainStepHolds(load, st, 2)
  {
    assert MainSnapshots[3] == Snapshot(Increment(MainSnapshots[2].nAccess), MainSnapshots[2].slots[1 := Full(1, 2)]);
    ShowsAfterMiss(MainConfig, load, st, MainSnapshots[2], 5, 1);
  }

  lemma MainStep3<D>(load: u32 -> D, st: CacheState<D>)
    requires Fits(MainConfig, st) && Shows(st, MainSnapshots[3])
    ensures MainStepHolds(load, st, 3)
  {
    assert MainSnapshots[4] == Snapshot(Increment(MainSnapshots[3].nAccess), MainSnapshots[3].slots[4 := Full(1, 3)]);
    ShowsAfterMiss(MainConfig, load, st, MainSnapshots[3], 7, 4);
  }

  lemma MainStep4<D>(load: u32 -> D, st: CacheState<D>)
    requires Fits(MainConfig, st) && Shows(st, MainSnapshots[4])
    ensures MainStepHolds(load, st, 4)
  {
    assert MainSnapshots[5] == Snapshot(MainSnapshots[4].nAccess, MainSnapshots[4].slots[4 := Full(1, 4)]);
    ShowsAfterHit(MainConfig, load, st, MainSnapshots[4], 7, 4);
  }

  lemma MainStep5<D>(load: u32 -> D, st: CacheState<D>)
    requires Fits(MainConfig, st) && Shows(st, MainSnapshots[5])
    ensures MainStepHolds(load, st, 5)
  {
    assert MainSnapshots[6] == Snapshot(Increment(MainSnapshots[5].nAccess), MainSnapshots[5].slots[2 := Full(0, 4)]);
    ShowsAfterMiss(MainConfig, load, st, MainSnapshots[5], 1, 2);
  }

  lemma MainStep6<D>(load: u32 -> D, st: CacheState<D>)
    requires Fits(MainConfig, st) && Shows(st, MainSnapshots[6])
    ensures MainStepHolds(load, st, 6)
  {
    assert MainSnapshots[7] == Snapshot(MainSnapshots[6].nAccess, MainSnapshots[6].slots[2 := Full(0, 5)]);
    ShowsAfterHit(MainConfig, load, st, MainSnapshots[6], 2, 2);
  }

  lemma MainStep7<D>(load: u32 -> D, st: CacheState<D>)
    requires Fits(MainConfig, st) && Shows(st, MainSnapshots[7])
    ensures MainStepHolds(load, st, 7)
  {
    assert MainSnapshots[8] == Snapshot(Increment(MainSnapshots[7].nAccess), MainSnapshots[7].slots[0 := Full(2, 5)]);
    ShowsAfterMiss(MainConfig, load, st, MainSnapshots[7], 8, 0);
  }

  lemma MainStep8<D>(load: u32 -> D, st: CacheState<D>)
    requires Fits(MainConfig, st) && Shows(st, MainSnapshots[8])
    ensures MainStepHolds(load, st, 8)
  {
    assert MainSnapshots[9] == Snapshot(MainSnapshots[8].nAccess, MainSnapshots[8].slots[3 := Full(0, 6)]);
    ShowsAfterHit(MainConfig, load, st, MainSnapshots[8], 3, 3);
  }

  lemma MainStep9<D>(load: u32 -> D, st: CacheState<D>)
    requires Fits(MainConfig, st) && Shows(st, MainSnapshots[9])
    ensures MainStepHolds(load, st, 9)
  {
    assert MainSnapshots[10] == Snapshot(Increment(MainSnapshots[9].nAccess), MainSnapshots[9].slots[1 := Full(0, 6)]);
    ShowsAfterMiss(MainConfig, load, st, MainSnapshots[9], 0, 1);
  }

  lemma MainStep10<D>(load: u32 -> D, st: CacheState<D>)
    requires Fits(MainConfig, st) && Shows(st, MainSnapshots[10])
    ensures MainStepHolds(load, st, 10)
  {
    assert MainSnapshots[11] == Snapshot(Increment(MainSnapshots[10].nAccess), MainSnapshots[10].slots[0 := Full(1, 7)]);
    ShowsAfterMiss(MainConfig, load, st, MainSnapshots[10], 4, 0);
  }

  lemma MainStep11<D>(load: u32 -> D, st: CacheState<D>)
    requires Fits(MainConfig, st) && Shows(st, MainSnapshots[11])
    ensures MainStepHolds(load, st, 11)
  {
    assert MainSnapshots[12] == Snapshot(MainSnapshots[11].nAccess, MainSnapshots[11].slots[2 := Full(0, 8)]);
    ShowsAfterHit(MainConfig, load, st, MainSnapshots[11], 2, 2);
  }

  lemma MainStep12<D>(load: u32 -> D, st: CacheState<D>)
    requires Fits(MainConfig, st) && Shows(st, MainSnapshots[12])
    ensures MainStepHolds(load, st, 12)
  {
    assert MainSnapshots[13] == Snapshot(MainSnapshots[12].nAccess, MainSnapshots[12].slots[1 := Full(0, 8)]);
    ShowsAfterHit(MainConfig, load, st, MainSnapshots[12], 1, 1);
  }

  lemma MainStep13<D>(load: u32 -> D, st: CacheState<D>)
    requires Fits(MainConfig, st) && Shows(st, MainSnapshots[13])
    ensures MainStepHolds(load, st, 13)
  {
    assert MainSnapshots[14] == Snapshot(MainSnapshots[13].nAccess, MainSnapshots[13].slots[0 := Full(1, 8)]);
    ShowsAfterHit(MainConfig, load, st, MainSnapshots[13], 4, 0);
  }

  lemma MainStep14<D>(load: u32 -> D, st: CacheState<D>)
    requires Fits(MainConfig, st) && Shows(st, MainSnapshots[14])
    ensures MainStepHolds(load, st, 14)
  {
    assert MainSnapshots[15] == Snapshot(Increment(MainSnapshots[14].nAccess), MainSnapshots[14].slots[1 := Full(1, 8)]);
    ShowsAfterMiss(MainConfig, load, st, MainSnapshots[14], 5, 1);
  }

  lemma MainStep15<D>(load: u32 -> D, st: CacheState<D>)
    requires Fits(MainConfig, st) && Shows(st, MainSnapshots[15])
    ensures MainStepHolds(load, st, 15)
  {
    assert MainSnapshots[16] == Snapshot(MainSnapshots[15].nAccess, MainSnapshots[15].slots[3 := Full(0, 9)]);
    ShowsAfterHit(MainConfig, load, st, MainSnapshots[15], 3, 3);
  }

  lemma MainStep16<D>(load: u32 -> D, st: CacheState<D>)
    requires Fits(MainConfig, st) && Shows(st, MainSnapshots[16])
    ensures MainStepHolds(load, st, 16)
  {
    assert MainSnapshots[17] == Snapshot(Increment(MainSnapshots[16].nAccess), MainSnapshots[16].slots[0 := Full(2, 9)]);
    ShowsAfterMiss(MainConfig, load, st, MainSnapshots[16], 8, 0);
  }

  lemma MainStep17<D>(load: u32 -> D, st: CacheState<D>)
    requires Fits(MainConfig, st) && Shows(st, MainSnapshots[17])
    ensures MainStepHolds(load, st, 17)
  {
    assert MainSnapshots[18] == Snapshot(MainSnapshots[17].nAccess, MainSnapshots[17].slots[1 := Full(1, 10)]);
    ShowsAfterHit(MainConfig, load, st, MainSnapshots[17], 5, 1);
  }

  lemma MainStep18<D>(load: u32 -> D, st: CacheState<D>)
    requires Fits(MainConfig, st) && Shows(st, MainSnapshots[18])
    ensures MainStepHolds(load, st, 18)
  {
    assert MainSnapshots[19] == Snapshot(MainSnapshots[18].nAccess, MainSnapshots[18].slots[2 := Full(0, 10)]);
    ShowsAfterHit(MainConfig, load, st, MainSnapshots[18], 2, 2);
  }

  lemma MainStep19<D>(load: u32 -> D, st: CacheState<D>)
    requires Fits(MainConfig, st) && Shows(st, MainSnapshots[19])
    ensures MainStepHolds(load, st, 19)
  {
    assert MainSnapshots[20] == Snapshot(MainSnapshots[19].nAccess, MainSnapshots[19].slots[1 := Full(1, 10)]);
    ShowsAfterHit(MainConfig, load, st, MainSnapshots[19], 5, 1);
  }

  lemma MainStep20<D>(load: u32 -> D, st: CacheState<D>)
    requires Fits(MainConfig, st) && Shows(st, MainSnapshots[20])
    ensures MainStepHolds(load, st, 20)
  {
    assert MainSnapshots[21] == Snapshot(MainSnapshots[20].nAccess, MainSnapshots[20].slots[3 := Full(0, 10)]);
    ShowsAfterHit(MainConfig, load, st, MainSnapshots[20], 3, 3);
  }

  lemma MainStep21<D>(load: u32 -> D, st: CacheState<D>)
    requires Fits(MainConfig, st) && Shows(st, MainSnapshots[21])
    ensures MainStepHolds(load, st, 21)
  {
    assert MainSnapshots[22] == Snapshot(MainSnapshots[21].nAccess, MainSnapshots[21].slots[1 := Full(1, 10)]);
    ShowsAfterHit(MainConfig, load, st, MainSnapshots[21], 5, 1);
  }

  lemma MainStep22<D>(load: u32 -> D, st: CacheState<D>)
    requires Fits(MainConfig, st) && Shows(st, MainSnapshots[22])
    ensures MainStepHolds(load, st, 22)
  {
    assert MainSnapshots[23] == Snapshot(MainSnapshots[22].nAccess, MainSnapshots[22].slots[2 := Full(0, 10)]);
    ShowsAfterHit(MainConfig, load, st, MainSnapshots[22], 2, 2);
  }

  /** Any read `k` of the run does what the tables say. */
  lemma MainStep<D>(load: u32 -> D, st: CacheState<D>, k: nat)
    requires k < |MainAccesses| && Fits(MainConfig, st) && Shows(st, MainSnapshots[k])
    ensures MainStepHolds(load, st, k)
  {
    if k == 0 { MainStep0(load, st); }
    else if k == 1 { MainStep1(load, st); }
    else if k == 2 { MainStep2(load, st); }
    else if k == 3 { MainStep3(load, st); }
    else if k == 4 { MainStep4(load, st); }
    else if k == 5 { MainStep5(load, st); }
    else if k == 6 { MainStep6(load, st); }
    else if k == 7 { MainStep7(load, st); }
    else if k == 8 { MainStep8(load, st); }
    else if k == 9 { MainStep9(load, st); }
    else if k == 10 { MainStep10(load, st); }
    else if k == 11 { MainStep11(load, st); }
    else if k == 12 { MainStep12(load, st); }
    else if k == 13 { MainStep13(load, st); }
    else if k == 14 { MainStep14(load, st); }
    else if k == 15 { MainStep15(load, st); }
    else if k == 16 { MainStep16(load, st); }
    else if k == 17 { MainStep17(load, st); }
    else if k == 18 { MainStep18(load, st); }
    else if k == 19 { MainStep19(load, st); }
    else if k == 20 { MainStep20(load, st); }
    else if k == 21 { MainStep21(load, st); }
    else { MainStep22(load, st); }
  }

  /** The calls main.c's loop makes: one `read_block_addr` per address, in order. */
  function Reads<D>(addrs: seq<u32>): (ops: seq<Op<D>>)
    ensures |ops| == |addrs|
  {
    if addrs == [] then [] else [ReadOp(addrs[0])] + Reads(addrs[1..])
  }

  /** A suffix starting at `k` is its first element followed by the suffix starting at `k + 1`. */
  lemma SliceCons<T>(s: seq<T>, k: nat)
    requires k < |s|
    ensures s[k..] == [s[k]] + s[k + 1..]
  {
  }

  /** From a state showing snapshot `k`, the remaining reads give the remaining outcomes. */
  lemma {:induction false} MainRunFrom<D>(load: u32 -> D, st: CacheState<D>, k: nat)
    requires k <= |MainAccesses| && Fits(MainConfig, st) && Shows(st, MainSnapshots[k])
    ensures var t := Run(MainConfig, load, st, Reads(MainAccesses[k..]));
            && t.outcomes == MainOutcomes[k..]
            && t.indices == MainIndices[k..]
            && Shows(t.final, MainSnapshots[|MainAccesses|])
    decreases |MainAccesses| - k
  {
    if k < |MainAccesses| {
      MainStep(load, st, k);
      var r := AccessBlock(MainConfig, load, st, MainAccesses[k], None);
      MainRunFrom(load, r.state, k + 1);
      SliceCons(MainAccesses, k);
      SliceCons(MainOutcomes, k);
      SliceCons(MainIndices, k);
    } else {
      assert MainAccesses[k..] == [];
    }
  }

  /**
   * The run of main.c from `cache_new(8, 2, LRU)` gives exactly the `misses`
   * table, using the blocks of `MainIndices`.
   */
  lemma MainRegression<D>(load: u32 -> D, st: CacheState<D>)
    requires Cold(MainConfig, st)
    ensures var t := Run(MainConfig, load, st, Reads(MainAccesses));
            t.outcomes == MainOutcomes && t.indices == MainIndices
  {
    assert Shows(st, MainSnapshots[0]);
    MainRunFrom(load, st, 0);
    assert MainAccesses[0..] == MainAccesses;
  }

  /** main.c prints a miss count of 10, which is also the final `n_access`. */
  lemma MainMissCount<D>(load: u32 -> D, st: CacheState<D>)
    requires Cold(MainConfig, st)
    ensures var t := Run(MainConfig, load, st, Reads(MainAccesses));
            CodeSum(t.outcomes) == 10 && t.final.nAccess == 10
  {
    assert Shows(st, MainSnapshots[0]);
    MainRunFrom(load, st, 0);
    assert MainAccesses[0..] == MainAccesses;
    ColdCodeSum(MainConfig, load, st, Reads(MainAccesses));
  }

  /**
   * Access 5 misses and fills block 2; access 6 then hits that same block
   * (see `MainFirstReadOfTwo` and `MainSharedBlock` for the addresses).
   */
  lemma MainFalseHit<D>(load: u32 -> D, st: CacheState<D>)
    requires Cold(MainConfig, st)
    ensures var t := Run(MainConfig, load, st, Reads(MainAccesses));
            && t.outcomes[5] == Miss && t.indices[5] == 2
            && t.outcomes[6] == Hit && t.indices[6] == 2
  {
    var t := Run(MainConfig, load, st, Reads(MainAccesses));
    MainRegression(load, st);
    MainTablesAtFiveAndSix(t.outcomes, t.indices);
  }

  /** Access 5 reads address 1 and access 6 reads address 2, which no earlier access named. */
  lemma MainFirstReadOfTwo()
    ensures MainAccesses[5] == 1 && MainAccesses[6] == 2 && 2 !in MainAccesses[..6]
  {
    assert MainAccesses[..6] == [0, 3, 5, 7, 7, 1];
  }

  /** Entries 5 and 6 of the outcome and block tables. */
  lemma MainTablesAtFiveAndSix(outs: seq<Lookup>, indices: seq<nat>)
    requires outs == MainOutcomes && indices == MainIndices
    ensures outs[5] == Miss && indices[5] == 2 && outs[6] == Hit && indices[6] == 2
  {
  }

  /**
   * Addresses 1 and 2 both have tag 0, and block 2 lies both in the window
   * [1, 3) of address 1 and in the window [2, 4) of address 2.
   */
  lemma MainSharedBlock()
    ensures TagOf(MainConfig, 1) == TagOf(MainConfig, 2) == 0
    ensures SetAddr(MainConfig, 1) == 1 && WindowEnd(MainConfig, 1) == 3
    ensures SetAddr(MainConfig, 2) == 2 && WindowEnd(MainConfig, 2) == 4
  {
  }
}

/**
 * The cache engine of cache.c: a `cache_t` whose block array and access
 * counter are updated in place by `read_block_addr`, `write_block_addr` and
 * `process_cache_miss`. Every method is proved to leave exactly the state
 * the value-level functions of CacheSpec prescribe.
 */
module CacheImpl {
  import opened CacheTypes
  import opened CacheSpec
  import opened CacheLemmas

  class Cache<D(0)> {
    /** Associativity: the number of blocks scanned per lookup. */
    const blocksPerSet: u32
    /** Number of blocks in the array. */
    const size: u32
    const scheme: Scheme
    /** The block array, refilled in place and never reallocated. */
    const blocks: array<Block<D>>
    /** `load_block`: the lower-level memory that supplies a missed block's data. */
    const load: u32 -> D
    /** Number of lower-level memory accesses, a wrapping 32-bit count. */
    var nAccess: u32
    /** The number of MISS results since initialisation. */
    ghost var misses: nat

    ghost predicate Valid()
      reads this
    {
      && blocks.Length == size
      && nAccess == misses % (U32_MAX + 1)
    }

    function Configuration(): Config
    {
      Config(blocksPerSet, size, scheme)
    }

    function State(): CacheState<D>
      reads this, blocks
    {
      CacheState(blocks[..], nAccess)
    }

    /**
     * `init_cache` on a freshly allocated block array: the parameters are
     * stored unchecked, and the loop clears only `valid` and `tag`, so the
     * timestamps and data of the new blocks are whatever the allocation held.
     */
    constructor (size: u32, blocksPerSet: u32, scheme: Scheme, load: u32 -> D)
      ensures Valid() && fresh(blocks)
      ensures this.size == size && this.blocksPerSet == blocksPerSet
      ensures this.scheme == scheme && this.load == load
      ensures Cold(Configuration(), State()) && misses == 0
    {
      this.blocksPerSet := blocksPerSet;
      this.size := size;
      this.scheme := scheme;
      this.load := load;
      nAccess := 0;
      misses := 0;
      var a := new Block<D>[size];
      for i := 0 to size
        invariant forall j :: 0 <= j < i ==> !a[j].valid && a[j].tag == 0
      {
        a[i] := a[i].(valid := false, tag := 0);
      }
      blocks := a;
    }

    /** The address mapping both operations start with: the window's first block and the tag. */
    method Locate(addr: u32) returns (setAddr: u32, tag: u32)
      requires WellConfigured(Configuration())
      ensures setAddr == SetAddr(Configuration(), addr) && tag == TagOf(Configuration(), addr)
      ensures setAddr + blocksPerSet <= size
    {
      var numSets := size / blocksPerSet;
      // The solver does not relate the field expressions to the spec functions
      // through `/` and `%` on its own.
      assert numSets == NumSets(Configuration());
      assert addr % numSets == SetAddr(Configuration(), addr);
      assert addr / numSets == TagOf(Configuration(), addr);
      setAddr := addr % numSets;
      tag := addr / numSets;
      WindowInBounds(Configuration(), addr);
    }

    /** The lookup loop shared by both operations: the first block of the window holding `tag`. */
    method SearchWindow(setAddr: u32, tag: u32) returns (found: Option<nat>)
      requires Valid() && 1 <= blocksPerSet && setAddr + blocksPerSet <= size
      ensures found == FirstHit(blocks[..], setAddr, setAddr + blocksPerSet, tag)
    {
      var i: nat := setAddr;
      while i < setAddr + blocksPerSet
        invariant setAddr <= i <= setAddr + blocksPerSet
        invariant FirstHit(blocks[..], setAddr, setAddr + blocksPerSet, tag)
               == FirstHit(blocks[..], i, setAddr + blocksPerSet, tag)
      {
        if blocks[i].tag == tag && blocks[i].valid {
          return Some(i);
        }
        i := i + 1;
      }
      return None;
    }

    /**
     * The running-minimum scan of `process_cache_miss`: it stops at the first
     * invalid block and otherwise keeps the first strictly smaller timestamp,
     * starting from `ts_min = 0xFFFFFFFF` and `block_index = 0`.
     */
    method ChooseVictim(setAddr: u32) returns (blockIndex: nat)
      requires Valid() && 1 <= blocksPerSet && setAddr + blocksPerSet <= size
      ensures blockIndex == Victim(blocks[..], setAddr, setAddr + blocksPerSet)
    {
      ghost var s := blocks[..];
      var hi := setAddr + blocksPerSet;
      var tsMin: u32 := U32_MAX;
      blockIndex := 0;
      var i: nat := setAddr;
      while i < hi
        invariant setAddr <= i <= hi
        invariant forall j :: setAddr <= j < i ==> s[j].valid
        invariant tsMin == U32_MAX ==>
                    blockIndex == 0 && forall j :: setAddr <= j < i ==> s[j].timeStamp == U32_MAX
        invariant tsMin < U32_MAX ==>
                    && setAddr <= blockIndex < i
                    && s[blockIndex].timeStamp == tsMin
                    && (forall j :: setAddr <= j < i ==> tsMin <= s[j].timeStamp)
                    && (forall j :: setAddr <= j < blockIndex ==> tsMin < s[j].timeStamp)
      {
        if !blocks[i].valid {
          blockIndex := i;
          break;
        } else if blocks[i].timeStamp < tsMin {
          blockIndex := i;
          tsMin := blocks[i].timeStamp;
        }
        i := i + 1;
      }
      assert IsVictim(s, setAddr, hi, blockIndex);
      VictimUnique(s, setAddr, hi, blockIndex);
    }

    /**
     * `process_cache_miss`: refills the victim in place with `load(addr)`,
     * the given tag and the current `n_access` as its timestamp. The
     * scheme is read by the source but plays no part in the choice.
     */
    method ProcessMiss(setAddr: u32, tag: u32, addr: u32) returns (blockIndex: nat)
      requires Valid() && 1 <= blocksPerSet && setAddr + blocksPerSet <= size
      modifies blocks
      ensures blockIndex == Victim(old(blocks[..]), setAddr, setAddr + blocksPerSet)
      ensures blockIndex < size
      ensures blocks[..] == old(blocks[..])[blockIndex := Block(true, tag, load(addr), nAccess)]
    {
      blockIndex := ChooseVictim(setAddr);
      blocks[blockIndex] := Block(true, tag, load(addr), nAccess);
    }

    /** `n_access++` after a miss, which keeps `n_access` the wrapped count of misses. */
    method CountMiss()
      requires Valid()
      modifies this
      ensures Valid()
      ensures nAccess == Increment(old(nAccess)) && misses == old(misses) + 1
    {
      IncrementModulo(nAccess, misses);
      nAccess := Increment(nAccess);
      misses := misses + 1;
    }

    /** `read_block_addr`: the outcome, and the data of the block that now holds `addr`. */
    method Read(addr: u32) returns (outcome: Lookup, data: D)
      requires Valid() && WellConfigured(Configuration())
      modifies this, blocks
      ensures Valid()
      ensures var r := AccessBlock(Configuration(), load, old(State()), addr, None);
              && outcome == r.outcome
              && State() == r.state
              && data == r.state.blocks[r.index].data
      ensures misses == old(misses) + Code(outcome)
    {
      ghost var c, st := Configuration(), State();
      var setAddr, tag := Locate(addr);
      var found := SearchWindow(setAddr, tag);
      if found.Some? {
        var i := found.value;
        HitAt(c, load, st, addr, None, i);
        data := blocks[i].data;
        if scheme == LRU {
          blocks[i] := blocks[i].(timeStamp := nAccess);
        }
        return Hit, data;
      }
      MissAt(c, load, st, addr, None, Victim(st.blocks, setAddr, setAddr + blocksPerSet));
      var blockIndex := ProcessMiss(setAddr, tag, addr);
      data := blocks[blockIndex].data;
      CountMiss();
      outcome := Miss;
    }

    /** `write_block_addr`; `data == None` stands for a NULL `block_data`. */
    method Write(addr: u32, data: Option<D>) returns (outcome: Lookup)
      requires Valid() && WellConfigured(Configuration())
      modifies this, blocks
      ensures Valid()
      ensures var r := AccessBlock(Configuration(), load, old(State()), addr, data);
              outcome == r.outcome && State() == r.state
      ensures misses == old(misses) + Code(outcome)
    {
      ghost var c, st := Configuration(), State();
      var setAddr, tag := Locate(addr);
      var found := SearchWindow(setAddr, tag);
      if found.Some? {
        var i := found.value;
        HitAt(c, load, st, addr, data, i);
        if data.Some? {
          blocks[i] := blocks[i].(data := data.value);
        }
        if scheme == LRU {
          blocks[i] := blocks[i].(timeStamp := nAccess);
        }
        return Hit;
      }
      MissAt(c, load, st, addr, data, Victim(st.blocks, setAddr, setAddr + blocksPerSet));
      var blockIndex := ProcessMiss(setAddr, tag, addr);
      if data.Some? {
        blocks[blockIndex] := blocks[blockIndex].(data := data.value);
      }
      CountMiss();
      outcome := Miss;
    }
  }
}

/**
 * Snapshots of a cache state that record, for every block, whether it is
 * valid and, if so, its tag and timestamp, but not its data. A concrete run
 * is followed one read at a time by the snapshot it leaves.
 */
module CacheSnapshots {
  import opened CacheTypes
  import opened CacheSpec
  import opened CacheLemmas

  /** What a snapshot records of one block: nothing when invalid, else its tag and timestamp. */
  datatype Slot = Empty | Full(tag: u32, timeStamp: u32)

  /** `n_access` and every block's slot at one point of the run. */
  datatype Snapshot = Snapshot(nAccess: u32, slots: seq<Slot>)

  /** The block agrees with the slot: invalid for `Empty`, else valid with its tag and timestamp. */
  predicate Matches<D>(b: Block<D>, s: Slot)
  {
    match s
    case Empty => !b.valid
    case Full(tag, ts) => b.valid && b.tag == tag && b.timeStamp == ts
  }

  /** The state agrees with the snapshot on `n_access` and on every block. */
  ghost predicate Shows<D>(st: CacheState<D>, snap: Snapshot)
  {
    && |st.blocks| == |snap.slots|
    && st.nAccess == snap.nAccess
    && forall i :: 0 <= i < |st.blocks| ==> Matches(st.blocks[i], snap.slots[i])
  }

  /** A hit seen through snapshots: only the hit block's timestamp changes, under LRU. */
  lemma ShowsAfterHit<D>(c: Config, load: u32 -> D, st: CacheState<D>, snap: Snapshot, addr: u32, i: nat)
    requires WellConfigured(c) && Fits(c, st) && c.scheme == LRU && Shows(st, snap)
    requires SetAddr(c, addr) <= i < WindowEnd(c, addr) <= |st.blocks|
    requires Holds(st.blocks[i], TagOf(c, addr))
    requires forall j :: SetAddr(c, addr) <= j < i ==> !Holds(st.blocks[j], TagOf(c, addr))
    ensures var r := AccessBlock(c, load, st, addr, None);
            && r.outcome == Hit && r.index == i
            && Shows(r.state, Snapshot(snap.nAccess, snap.slots[i := Full(TagOf(c, addr), snap.nAccess)]))
  {
    HitAt(c, load, st, addr, None, i);
  }

  /** Under FIFO and RANDOM a hit changes nothing a snapshot records. */
  lemma ShowsAfterHitKept<D>(c: Config, load: u32 -> D, st: CacheState<D>, snap: Snapshot, addr: u32, i: nat)
    requires WellConfigured(c) && Fits(c, st) && c.scheme != LRU && Shows(st, snap)
    requires SetAddr(c, addr) <= i < WindowEnd(c, addr) <= |st.blocks|
    requires Holds(st.blocks[i], TagOf(c, addr))
    requires forall j :: SetAddr(c, addr) <= j < i ==> !Holds(st.blocks[j], TagOf(c, addr))
    ensures var r := AccessBlock(c, load, st, addr, None);
            r.outcome == Hit && r.index == i && Shows(r.state, snap)
  {
    HitAt(c, load, st, addr, None, i);
  }

  /** A miss seen through snapshots: the victim's slot becomes the tag at the old `n_access`. */
  lemma ShowsAfterMiss<D>(c: Config, load: u32 -> D, st: CacheState<D>, snap: Snapshot, addr: u32, v: nat)
    requires WellConfigured(c) && Fits(c, st) && Shows(st, snap)
    requires SetAddr(c, addr) < WindowEnd(c, addr) <= |st.blocks|
    requires forall j :: SetAddr(c, addr) <= j < WindowEnd(c, addr) ==> !Holds(st.blocks[j], TagOf(c, addr))
    requires IsVictim(st.blocks, SetAddr(c, addr), WindowEnd(c, addr), v)
    ensures var r := AccessBlock(c, load, st, addr, None);
            && r.outcome == Miss && r.index == v
            && Shows(r.state, Snapshot(Increment(snap.nAccess), snap.slots[v := Full(TagOf(c, addr), snap.nAccess)]))
  {
    MissAt(c, load, st, addr, None, v);
  }
}

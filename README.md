# A set-associative block cache, modelled in Dafny

The repository is a small cache simulator in C. A `cache_t` is built with:

- `size`, the number of blocks;
- `blocks_per_set`, the associativity;
- a replacement scheme: `LRU`, `FIFO` or `RANDOM`.

A caller reads or writes block addresses, and each call reports `HIT` or `MISS`.
An address is split into a set address (`addr % num_sets`) and a tag (`addr / num_sets`).
The cache scans `blocks_per_set` consecutive blocks, starting at the set address, for a valid block holding the tag.
On a miss, `process_cache_miss` refills a victim block:

- the first invalid block of the window;
- otherwise, the block with the smallest timestamp.

The refilled block takes the data `load_block` supplies, and the current access count `n_access` becomes its timestamp.
Under LRU, a hit also stamps the hit block with `n_access`.

The model is layered as follows:

- `CacheTypes` (cache_types.dfy): the declarations of cache.h. It holds the 32-bit unsigned integers with an explicit wrap-around for `n_access++`, the scheme and lookup enums, and the block record.
- `CacheSpec` (cache_spec.dfy): the behaviour of one call on values.
  - The address mapping.
  - `FirstHit`, the hit scan.
  - The victim rule, given twice: as the function `Victim` and as the declarative predicate `IsVictim`, with a proof that they agree.
  - `AccessBlock`, one complete read or write.
- `CacheImpl.Cache` (cache.dfy): the `cache_t` object as a class.
  - The `blocks` array is updated in place.
  - `n_access` is a field.
  - `init_cache`, the two lookup loops, `process_cache_miss`, `read_block_addr` and `write_block_addr` are methods with their loops.
  - Each method's contract ties its new state to `CacheSpec`.
  - The class invariant `Valid` maintains that `n_access` is the wrapped number of misses so far.
- `CacheLemmas` (cache_lemmas.dfy): the properties of a single call, each proved against `AccessBlock`.
  - The hit frame and the miss frame.
  - The counter step.
  - Cold start.
  - Repeat hits.
  - FIFO and RANDOM being the same operation.
- `CacheTrace` (cache_trace.dfy): sequences of calls. It proves that `n_access` counts the misses, that summing the outcome codes (as main.c does) counts them too, and that FIFO and RANDOM agree on every trace.
- `CacheSnapshots` and `MainTrace` (cache_snapshots.dfy, main_trace.dfy): the replay of main.c.
  - For every `load_block`, 23 reads from `cache_new(8, 2, LRU)` give exactly the `misses` table main.c records, using the blocks listed in `MainIndices`.
  - The miss count is 10.
  - Access 6 hits although its address was never read before.
- `CacheScenarios` (cache_scenarios.dfy): short concrete runs.
  - The LRU and FIFO eviction orders on one two-block set.
  - A read returning another address's data.
  - A window holding the same tag twice.

The code is modelled as written where it departs from a textbook set-associative cache:

- Windows are not multiplied by `blocks_per_set`, so windows of neighbouring set addresses overlap. The same tag can then sit twice in one window (`DuplicateTags`). A read can also hit a block that was filled for a different address, and return that address's data (`AliasedRead`, `MainFalseHit`).
- `n_access` is incremented on misses only, not on hits.
- A write that misses still calls `load_block` before storing the caller's data. With a non-NULL pointer the loaded data is overwritten at once, so in the model this shows only for a NULL write.
- `RANDOM` draws no random number: outside the LRU refresh, nothing in the code tests the scheme, so RANDOM behaves exactly like FIFO (`NonLruSchemesAgree`, `FifoRandomAgree`).
- When every block of a full window has timestamp `0xFFFFFFFF`, the victim scan never takes its `<` branch and refills block 0, even if block 0 lies outside the window. This can happen only once `n_access` has reached `0xFFFFFFFF`. Under LRU no wrap is needed, because a hit stamps `n_access` without incrementing it. Under FIFO and RANDOM with two or more blocks per set, it happens only after `n_access` wraps. A repeated access then misses again, into block 0, which is why `RepeatHits` requires the refilled block to lie in the window. The model keeps this case (`IsVictim`, `MissIndexInWindow`, `RepeatMissesAtLastStamp`).

Two things are parameters of the model:

- The lower-level memory `load_block` (a weak symbol returning NULL by default) is the function `load`.
- The data handles are an arbitrary type `D`.

## Model

| member | source | states |
|---|---|---|
| CacheTypes.Increment | cache.c:91 | `n_access++` on a `uint32_t` is `(n + 1) mod 2^32`: the largest value wraps back to 0 |
| CacheTypes.Code | cache.h:12-15 | the numeric value of an outcome is 0 or 1, and it is 1 exactly for `MISS` |
| CacheTypes.IncrementBy | cache.c:91 | `n_access++` applied `k` times; its closed form is `IncrementByModulo` |
| CacheTypes.IncrementModulo | cache.c:91 | incrementing a count held modulo 2^32 gives the next count modulo 2^32 |
| CacheTypes.IncrementByModulo | cache.c:126 | `k` increments of `n` give `(n + k) mod 2^32` |
| CacheSpec.NumSets | cache.c:68 | `size / blocks_per_set` lies between 1 and `size` whenever `1 <= blocks_per_set <= size` |
| CacheSpec.SetAddr | cache.c:69 | the set address is below the number of sets |
| CacheSpec.TagOf | cache.c:71 | the tag never exceeds the address |
| CacheSpec.WindowEnd | cache.c:75 | the loop bound `set_addr + blocks_per_set`, one past the window's last block |
| CacheSpec.Holds | cache.c:76 | the hit test of both loops: the block is valid and its tag equals the lookup tag |
| CacheSpec.Cold | cache.c:37-48 | the state `init_cache` leaves: `size` blocks, each invalid with tag 0, and `n_access` 0 |
| CacheSpec.WindowInBounds | cache.c:75 | the scanned window `[set_addr, set_addr + blocks_per_set)` ends inside the block array, so no index is out of range and the loop bound does not overflow |
| CacheSpec.SetWindowInBounds | cache.c:68-75 | for every set address below `num_sets`, the window ends at or before `size` |
| CacheSpec.DivisionBounds | cache.c:68 | `1 <= size / blocks_per_set` and `(size / blocks_per_set) * blocks_per_set <= size` |
| CacheSpec.FirstHit | cache.c:75-84 | the scan returns the lowest index of the window whose block is valid with the tag, and returns none exactly when no block of the window is |
| CacheSpec.FirstInvalid | cache.c:144-148 | the lowest invalid index of the window, and none exactly when every block there is valid |
| CacheSpec.ArgMin | cache.c:149-152 | an index of the range with the smallest timestamp, strictly smaller than every earlier one, so it is the first minimum |
| CacheSpec.Victim | cache.c:141-153 | the victim is an index of the block array |
| CacheSpec.VictimFollowsRule | cache.c:141-153 | the victim is the first invalid block; else the first block with the smallest timestamp when that is below `0xFFFFFFFF`; else block 0 |
| CacheSpec.VictimUnique | cache.c:141-153 | that rule admits exactly one index, so any index satisfying it is the victim |
| CacheSpec.Store | cache.c:112 | the NULL-guarded data store of `write_block_addr`; its frame is `StoreFrame` |
| CacheSpec.StoreFrame | cache.c:123 | storing the caller's data changes only the data of that one block, and only for a non-NULL pointer; flags, tags, timestamps, other blocks and `n_access` stay |
| CacheSpec.AccessBlock | cache.c:67-128 | a read or write keeps the block array at `size` entries, and the block it reports lies inside the array |
| CacheImpl.Cache.constructor | cache.c:32-51 | stores the three parameters, sets `n_access` to 0, and leaves every block invalid with tag 0 |
| CacheImpl.Cache.Locate | cache.c:68-71 | computes the set address and the tag of `CacheSpec`, and the window fits in the array |
| CacheImpl.Cache.SearchWindow | cache.c:75-84 | the loop returns exactly `FirstHit` of the current blocks |
| CacheImpl.Cache.ChooseVictim | cache.c:141-153 | the running-minimum loop, with its early exit on an invalid block, returns exactly `Victim` |
| CacheImpl.Cache.ProcessMiss | cache.c:138-162 | refills only the victim, as `Block(true, tag, load(addr), n_access)`, and returns its index |
| CacheImpl.Cache.CountMiss | cache.c:91 | `n_access` becomes `Increment(n_access)`, and still equals the number of misses modulo 2^32 |
| CacheImpl.Cache.Read | cache.c:67-93 | leaves the state `AccessBlock` prescribes for a read, returns its outcome and the data of the block it used, and counts one more miss exactly on `MISS` |
| CacheImpl.Cache.Write | cache.c:102-128 | leaves the state `AccessBlock` prescribes for a write of the given data (none for NULL), returns its outcome, and counts one more miss exactly on `MISS` |
| CacheLemmas.MappingRoundTrip | cache.c:68-71 | `tag * num_sets + set_addr` is the address again |
| CacheLemmas.MappingInjective | cache.c:68-71 | distinct addresses differ in their set address or their tag |
| CacheLemmas.HitIffPresent | cache.c:75-84 | an access hits if and only if some valid block of its window holds its tag |
| CacheLemmas.HitFrame | cache.c:75-83 | on a hit, only the first matching block changes: its flag and tag stay the same; its timestamp becomes `n_access` under LRU only; its data becomes the written data when one is given; `n_access` does not change |
| CacheLemmas.MissFrame | cache.c:86-92 | on a miss, no block of the window held the tag. Only the victim changes, to `Block(valid, tag, put-or-load(addr), old n_access)`, and `n_access` is incremented |
| CacheLemmas.CounterStep | cache.c:79-92 | one call increments `n_access` on a miss and leaves it alone on a hit |
| CacheLemmas.MissIndexInWindow | cache.c:142-153 | the refilled block lies in the window when the window has an invalid block or a timestamp below `0xFFFFFFFF`; otherwise it is block 0 |
| CacheLemmas.ColdStart | cache.c:45-48 | on a freshly initialised cache, every first access misses and fills the first block of its window |
| CacheLemmas.RepeatHits | cache.c:75-83 | repeating an access whose block landed in the window hits that same block, and a repeated read returns the data the first access left there |
| CacheLemmas.HitAt | cache.c:75-83 | conversely, the first block of the window holding the tag is hit, with the LRU refresh and the optional data store as the whole new state |
| CacheLemmas.MissAt | cache.c:86-92 | conversely, when no block of the window holds the tag, the access misses and refills the block the victim rule picks |
| CacheLemmas.NonLruSchemesAgree | cache.c:79-80 | FIFO and RANDOM give the same access result |
| CacheTrace.Run | cache.c:67-128 | a sequence of calls yields one outcome and one block per call, and keeps the array at `size` blocks |
| CacheTrace.CodeSumCountsMisses | cache.h:12-15 | with `HIT = 0` and `MISS = 1`, the sum of the outcome codes is the number of misses |
| CacheTrace.MissesAtMost | cache.h:12-15 | a trace has no more misses than calls |
| CacheTrace.CounterCountsMisses | cache.c:91 | over any trace, `n_access` is incremented exactly once per miss |
| CacheTrace.MissesCons | cache.h:12-15 | a leading outcome adds its code to the miss count |
| CacheTrace.ColdCounter | cache.c:37 | from initialisation, `n_access` is the number of misses modulo 2^32, and exactly that number below 2^32 misses |
| CacheTrace.CountFromZero | cache.c:37 | `k` increments from 0 give `k mod 2^32`, which is `k` itself below 2^32 |
| CacheTrace.ColdCodeSum | main.c:16-18 | from initialisation, the summed outcome codes equal the final `n_access` for any trace shorter than 2^32 calls |
| CacheTrace.FifoRandomAgree | cache.c:79-80 | FIFO and RANDOM give the same outcomes, blocks and final state on every trace |
| CacheSnapshots.ShowsAfterHit | cache.c:79-80 | under LRU, a hit changes only the hit block's recorded timestamp, to `n_access` |
| CacheSnapshots.ShowsAfterHitKept | cache.c:79-80 | under FIFO and RANDOM, a read hit changes nothing a snapshot records |
| CacheSnapshots.ShowsAfterMiss | cache.c:155-159 | a miss records the victim as valid with the tag and the old `n_access`, and increments `n_access` |
| MainTrace.MainStep | main.c:14-19 | read `k` of the driver, from the state after read `k - 1`, gives the tabled outcome and block and the next tabled state |
| MainTrace.MainRunFrom | main.c:14-19 | from the state after read `k - 1`, the remaining reads give the remaining outcomes and blocks |
| MainTrace.MainRegression | main.c:5-19 | the 23 reads of `access` from `cache_new(8, 2, LRU)` give exactly the `misses` table: misses at reads 0, 1, 2, 3, 5, 7, 9, 10, 14 and 16, hits elsewhere |
| MainTrace.MainMissCount | main.c:18-21 | the printed miss count is 10, and so is the final `n_access` |
| MainTrace.MainFalseHit | main.c:5-19 | read 5 misses and fills block 2; read 6 hits block 2 |
| MainTrace.MainFirstReadOfTwo | main.c:5 | read 5 is of address 1, read 6 is of address 2, and no earlier read names address 2 |
| MainTrace.MainSharedBlock | cache.c:68-75 | in `cache_new(8, 2, LRU)`, addresses 1 and 2 both have tag 0, with windows `[1, 3)` and `[2, 4)` that share block 2 |
| CacheScenarios.LruEvictsLeastRecentlyUsed | cache.c:141-153 | under LRU, in one two-block set, reads of A, B, A, C miss, miss, hit, miss; the last miss evicts B and keeps A |
| CacheScenarios.FifoEvictsFirstFilled | cache.c:141-153 | under FIFO, the same reads evict A, the first block filled, although A was hit after B was filled |
| CacheScenarios.RepeatMissesAtLastStamp | cache.c:79-80 | under LRU with `n_access` at `0xFFFFFFFF`, two hits stamp the window `[1, 3)` with `0xFFFFFFFF` and `n_access` stays there; a read of 1 then misses into block 0, outside its window, and the same read misses into block 0 again |
| CacheScenarios.AliasedRead | cache.c:69-77 | in main.c's configuration, read 1 fills block 1; a following read of 0 hits block 1 and returns the data loaded for address 1 |
| CacheScenarios.DuplicateTags | cache.c:69-75 | reads of 0 and 1 leave two valid blocks with tag 0 in the window `[0, 2)` |

## Left out

- `cache_new` and `init_cache`: the `malloc` of the `cache_t` and of the block array are not modelled, and neither is the NULL return. When the block array's allocation fails, `init_cache` frees the cache and then still writes through it. The model assumes the allocation succeeds.
- `free_cache` releases memory only; the model has no deallocation.
- `malloc(size * sizeof(cache_block_t))` can overflow in the source; the model's array simply has `size` entries.
- `init_cache`'s `int i` loop counter would overflow for `size` above `INT_MAX`; the model's loop index is unbounded.
- The new array's timestamps and data are whatever the allocation held; the model leaves them as the language's arbitrary initial values.
- `CacheSpec.WellConfigured` requires `1 <= blocks_per_set <= size`. Any other configuration divides by zero in `size / blocks_per_set` or in `% num_sets`, which C leaves undefined.
- `load_block` is a function `load` given to the constructor. The weak default that returns NULL is one such function.
- CacheImpl.Cache.Read: always returns the block's data. When `block_data` is NULL, the source skips only that store, and the state change is the same.
- main.c's `printf` output is not modelled. Its loop over `access`, with the sentinel `-1` removed, is the argument of `MainRegression`.
- Concurrency: the source has none, and the model has none.
- `RANDOM` draws no random number in the source, so no probabilistic property is modelled. Its in-window bound is the same as FIFO's (`MissIndexInWindow`).
- `load_block` calls: `load` is a pure function, so the model records neither the calls nor any effect they have. A write miss with a non-NULL pointer therefore looks as if nothing was loaded.
- The snapshots of `CacheSnapshots` record the valid flags, tags and timestamps but not the data. The data of the main.c run is arbitrary, because `load` is.

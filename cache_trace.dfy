/**
 * Sequences of reads and writes: the access counter against the number of
 * misses, FIFO against RANDOM, and concrete traces including the one main.c
 * replays.
 */
module CacheTrace {
  import opened CacheTypes
  import opened CacheSpec
  import opened CacheLemmas

  /** One call on the cache: `read_block_addr` or `write_block_addr` with its data (`None` for NULL). */
  datatype Op<D> = ReadOp(addr: u32) | WriteOp(addr: u32, put: Option<D>)

  /** The data argument an operation passes down; a read passes none. */
  function PutOf<D>(op: Op<D>): Option<D>
  {
    match op
    case ReadOp(_) => None
    case WriteOp(_, put) => put
  }

  /** What a sequence of calls leaves: the final state, and each call's outcome and block, in order. */
  datatype Trace<D> = Trace(final: CacheState<D>, outcomes: seq<Lookup>, indices: seq<nat>)

  /** Performs the calls of `ops` one after the other, starting from `st`. */
  function Run<D>(c: Config, load: u32 -> D, st: CacheState<D>, ops: seq<Op<D>>): (t: Trace<D>)
    requires WellConfigured(c) && Fits(c, st)
    ensures Fits(c, t.final) && |t.outcomes| == |ops| && |t.indices| == |ops|
    decreases |ops|
  {
    if ops == [] then Trace(st, [], [])
    else
      var r := AccessBlock(c, load, st, ops[0].addr, PutOf(ops[0]));
      var rest := Run(c, load, r.state, ops[1..]);
      Trace(rest.final, [r.outcome] + rest.outcomes, [r.index] + rest.indices)
  }

  /** The number of MISS results in a sequence of outcomes. */
  function Misses(outs: seq<Lookup>): nat
  {
    if outs == [] then 0 else (if outs[0] == Miss then 1 else 0) + Misses(outs[1..])
  }

  /** The sum of the numeric outcome codes, as main.c adds them up into its miss count. */
  function CodeSum(outs: seq<Lookup>): nat
  {
    if outs == [] then 0 else Code(outs[0]) + CodeSum(outs[1..])
  }

  /** A sequence of outcomes has at most as many misses as entries. */
  lemma {:induction false} MissesAtMost(outs: seq<Lookup>)
    ensures Misses(outs) <= |outs|
  {
    if outs != [] {
      MissesAtMost(outs[1..]);
    }
  }

  /** With `HIT = 0` and `MISS = 1`, summing the codes counts the misses. */
  lemma {:induction false} CodeSumCountsMisses(outs: seq<Lookup>)
    ensures CodeSum(outs) == Misses(outs)
  {
    if outs != [] {
      CodeSumCountsMisses(outs[1..]);
    }
  }

  /** `n_access` is incremented exactly once per miss of a trace. */
  lemma {:induction false} CounterCountsMisses<D>(c: Config, load: u32 -> D, st: CacheState<D>, ops: seq<Op<D>>)
    requires WellConfigured(c) && Fits(c, st)
    ensures Run(c, load, st, ops).final.nAccess == IncrementBy(st.nAccess, Misses(Run(c, load, st, ops).outcomes))
    decreases |ops|
  {
    if ops != [] {
      var r := AccessBlock(c, load, st, ops[0].addr, PutOf(ops[0]));
      var rest := Run(c, load, r.state, ops[1..]);
      CounterCountsMisses(c, load, r.state, ops[1..]);
      MissesCons(r.outcome, rest.outcomes);
      CounterStep(c, load, st, ops[0].addr, PutOf(ops[0]));
    }
  }

  /** A leading outcome adds its code to the number of misses. */
  lemma MissesCons(first: Lookup, rest: seq<Lookup>)
    ensures Misses([first] + rest) == Code(first) + Misses(rest)
  {
    assert ([first] + rest)[1..] == rest;
  }

  /**
   * From initialisation, `n_access` is the number of MISS results so far,
   * exactly so while fewer than 2^32 misses have happened.
   */
  lemma ColdCounter<D>(c: Config, load: u32 -> D, st: CacheState<D>, ops: seq<Op<D>>)
    requires WellConfigured(c) && Cold(c, st)
    ensures var t := Run(c, load, st, ops);
            && t.final.nAccess == Misses(t.outcomes) % (U32_MAX + 1)
            && (Misses(t.outcomes) <= U32_MAX ==> t.final.nAccess == Misses(t.outcomes))
  {
    var t := Run(c, load, st, ops);
    CounterCountsMisses(c, load, st, ops);
    CountFromZero(Misses(t.outcomes));
  }

  /** Incrementing 0 `k` times gives `k` modulo 2^32, which is `k` itself below 2^32. */
  lemma CountFromZero(k: nat)
    ensures IncrementBy(0, k) == k % (U32_MAX + 1)
    ensures k <= U32_MAX ==> IncrementBy(0, k) == k
  {
    IncrementByModulo(0, k);
  }

  /**
   * From initialisation, the miss count main.c adds up from the outcome codes
   * equals the final `n_access`, for any trace shorter than 2^32 calls.
   */
  lemma ColdCodeSum<D>(c: Config, load: u32 -> D, st: CacheState<D>, ops: seq<Op<D>>)
    requires WellConfigured(c) && Cold(c, st) && |ops| <= U32_MAX
    ensures var t := Run(c, load, st, ops);
            CodeSum(t.outcomes) == t.final.nAccess
  {
    var t := Run(c, load, st, ops);
    ColdCounter(c, load, st, ops);
    MissesAtMost(t.outcomes);
    CodeSumCountsMisses(t.outcomes);
  }

  /** FIFO and RANDOM give the same outcomes and the same states on every trace. */
  lemma {:induction false} FifoRandomAgree<D>(c: Config, load: u32 -> D, st: CacheState<D>, ops: seq<Op<D>>)
    requires WellConfigured(c) && Fits(c, st)
    ensures Run(c.(scheme := FIFO), load, st, ops) == Run(c.(scheme := RANDOM), load, st, ops)
    decreases |ops|
  {
    if ops != [] {
      var f, r := c.(scheme := FIFO), c.(scheme := RANDOM);
      NonLruSchemesAgree(f, r, load, st, ops[0].addr, PutOf(ops[0]));
      var a := AccessBlock(f, load, st, ops[0].addr, PutOf(ops[0]));
      FifoRandomAgree(c, load, a.state, ops[1..]);
    }
  }
}

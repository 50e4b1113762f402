/**
 The size-class pool of pkg/pool/byteslice/byteslice.go. Bucket i hands out slices of capacity
 2^i; the pool never looks at what the memory behind a returned pointer really is, so what must
 hold is that every pointer in bucket i has at least 2^i bytes behind it.
 */
module SlicePool {
  import opened Toolkit

  const BUCKETS := 32
  const MAX_INT32 := 0x7FFF_FFFF

  /** A position in an allocated block. */
  datatype Pointer = Pointer(block: nat, offset: nat)

  /** A slice header. */
  datatype Slice = NilSlice | Slice(at: Pointer, length: nat, cap: nat)

  /** bits.Len32 */
  function Len32(x: nat): nat {
    if x == 0 then 0 else 1 + Len32(x / 2)
  }

  function Index(n: nat): nat
    requires n > 0
  {
    Len32(n - 1)
  }

  lemma {:induction false} LenIsWidth(x: nat)
    ensures x < Pow2(Len32(x))
    ensures x > 0 ==> Pow2(Len32(x) - 1) <= x
  {
    if x > 0 {
      LenIsWidth(x / 2);
    }
  }

  /** Index(n) is the smallest size class that holds n bytes. */
  lemma IndexIsSmallestClass(n: nat)
    requires n > 0
    ensures n <= Pow2(Index(n))
    ensures forall j: nat :: n <= Pow2(j) ==> Index(n) <= j
  {
    LenIsWidth(n - 1);
    forall j: nat | n <= Pow2(j) ensures Index(n) <= j {
      if j < Index(n) {
        Pow2Grows(j, Index(n) - 1);
      }
    }
  }

  lemma ClassesOf32Bits(n: nat)
    requires 0 < n <= MAX_INT32
    ensures Index(n) < BUCKETS
  {
    IndexIsSmallestClass(n);
    Pow2Of31();
  }

  lemma Pow2Of31()
    ensures Pow2(31) == MAX_INT32 + 1
  {
    assert Pow2(3) == 8;
    Times16(3); Times16(7); Times16(11); Times16(15); Times16(19); Times16(23); Times16(27);
  }

  // ---------------------------------------------------------------------------------------
  // Which blocks are where
  // ---------------------------------------------------------------------------------------

  function Is(b: nat, p: Pointer): nat {
    if p.block == b then 1 else 0
  }

  /** How often block b occurs in a bucket. */
  function InBucket(b: nat, bucket: seq<Pointer>): nat {
    if bucket == [] then 0 else InBucket(b, bucket[..|bucket| - 1]) + Is(b, bucket[|bucket| - 1])
  }

  /** ... in all buckets. */
  function InPools(b: nat, pools: seq<seq<Pointer>>): nat {
    if pools == [] then 0 else InPools(b, pools[..|pools| - 1]) + InBucket(b, pools[|pools| - 1])
  }

  /** How many slices point into block b. */
  function InLive(b: nat, live: seq<Slice>): nat {
    if live == [] then 0 else InLive(b, live[..|live| - 1]) + Into(b, live[|live| - 1])
  }

  function Into(b: nat, s: Slice): nat {
    if s.Slice? then Is(b, s.at) else 0
  }

  lemma BucketAppend(b: nat, bucket: seq<Pointer>, p: Pointer)
    ensures InBucket(b, bucket + [p]) == InBucket(b, bucket) + Is(b, p)
  {
    assert (bucket + [p])[..|bucket|] == bucket;
  }

  lemma LiveAppend(b: nat, live: seq<Slice>, s: Slice)
    ensures InLive(b, live + [s]) == InLive(b, live) + Into(b, s)
  {
    assert (live + [s])[..|live|] == live;
  }

  lemma {:induction false} BucketRemove(b: nat, bucket: seq<Pointer>, k: nat)
    requires k < |bucket|
    ensures InBucket(b, bucket) == InBucket(b, bucket[..k] + bucket[k + 1..]) + Is(b, bucket[k])
    decreases |bucket|
  {
    var last := |bucket| - 1;
    if k < last {
      BucketRemove(b, bucket[..last], k);
      assert bucket[..last][..k] + bucket[..last][k + 1..] + [bucket[last]] == bucket[..k] + bucket[k + 1..];
      BucketAppend(b, bucket[..last][..k] + bucket[..last][k + 1..], bucket[last]);
    } else {
      assert bucket[..k] + bucket[k + 1..] == bucket[..last];
    }
  }

  lemma {:induction false} LiveRemove(b: nat, live: seq<Slice>, i: nat)
    requires i < |live|
    ensures InLive(b, live) == InLive(b, live[..i] + live[i + 1..]) + Into(b, live[i])
    decreases |live|
  {
    var last := |live| - 1;
    if i < last {
      LiveRemove(b, live[..last], i);
      assert live[..last][..i] + live[..last][i + 1..] + [live[last]] == live[..i] + live[i + 1..];
      LiveAppend(b, live[..last][..i] + live[..last][i + 1..], live[last]);
    } else {
      assert live[..i] + live[i + 1..] == live[..last];
    }
  }

  lemma {:induction false} LiveReplace(b: nat, live: seq<Slice>, i: nat, s: Slice)
    requires i < |live|
    ensures InLive(b, live[i := s]) + Into(b, live[i]) == InLive(b, live) + Into(b, s)
    decreases |live|
  {
    var last := |live| - 1;
    if i < last {
      assert live[i := s][..last] == live[..last][i := s];
      LiveReplace(b, live[..last], i, s);
    } else {
      assert live[i := s][..last] == live[..last];
    }
  }

  lemma {:induction false} PoolsReplace(b: nat, pools: seq<seq<Pointer>>, i: nat, bucket: seq<Pointer>)
    requires i < |pools|
    ensures InPools(b, pools[i := bucket]) + InBucket(b, pools[i]) == InPools(b, pools) + InBucket(b, bucket)
    decreases |pools|
  {
    var last := |pools| - 1;
    if i < last {
      assert pools[i := bucket][..last] == pools[..last][i := bucket];
      PoolsReplace(b, pools[..last], i, bucket);
    } else {
      assert pools[i := bucket][..last] == pools[..last];
    }
  }

  lemma {:induction false} CountedInPools(pools: seq<seq<Pointer>>, i: nat, k: nat)
    requires i < |pools| && k < |pools[i]|
    ensures InPools(pools[i][k].block, pools) >= 1
    decreases |pools|
  {
    var last := |pools| - 1;
    if i < last {
      CountedInPools(pools[..last], i, k);
    } else {
      BucketRemove(pools[i][k].block, pools[i], k);
    }
  }

  lemma TwiceInLive(live: seq<Slice>, i: nat, j: nat)
    requires i < j < |live| && live[i].Slice? && live[j].Slice? && live[i].at.block == live[j].at.block
    ensures InLive(live[i].at.block, live) >= 2
  {
    var b, rest := live[i].at.block, live[..j] + live[j + 1..];
    LiveRemove(b, live, j);
    assert rest[i] == live[i];
    LiveRemove(b, rest, i);
  }

  /** No block is in two places, be it a bucket or a live slice, and only allocated ones are anywhere. */
  ghost predicate Owned(pools: seq<seq<Pointer>>, live: seq<Slice>, sizes: map<nat, nat>) {
    forall b: nat :: OwnedOnce(b, pools, live, sizes)
  }

  ghost predicate OwnedOnce(b: nat, pools: seq<seq<Pointer>>, live: seq<Slice>, sizes: map<nat, nat>) {
    InPools(b, pools) + InLive(b, live) <= if b in sizes then 1 else 0
  }

  lemma {:induction false} EmptyPools(b: nat, pools: seq<seq<Pointer>>)
    requires forall i :: 0 <= i < |pools| ==> pools[i] == []
    ensures InPools(b, pools) == 0
    decreases |pools|
  {
    if pools != [] {
      EmptyPools(b, pools[..|pools| - 1]);
    }
  }

  lemma NothingOwned(pools: seq<seq<Pointer>>, sizes: map<nat, nat>)
    requires forall i :: 0 <= i < |pools| ==> pools[i] == []
    ensures Owned(pools, [], sizes)
  {
    forall b: nat ensures OwnedOnce(b, pools, [], sizes) {
      EmptyPools(b, pools);
    }
  }

  /** Exactly the pointer p left bucket i. */
  ghost predicate TakenFrom(pools: seq<seq<Pointer>>, i: nat, p: Pointer, pools': seq<seq<Pointer>>) {
    i < |pools| && exists k :: 0 <= k < |pools[i]| && pools[i][k] == p && pools' == pools[i := pools[i][..k] + pools[i][k + 1..]]
  }

  lemma TakenCounts(b: nat, pools: seq<seq<Pointer>>, i: nat, p: Pointer, pools': seq<seq<Pointer>>)
    requires TakenFrom(pools, i, p, pools')
    ensures InPools(b, pools) == InPools(b, pools') + Is(b, p)
  {
    var k :| 0 <= k < |pools[i]| && pools[i][k] == p && pools' == pools[i := pools[i][..k] + pools[i][k + 1..]];
    BucketRemove(b, pools[i], k);
    PoolsReplace(b, pools, i, pools'[i]);
  }

  class Pool {
    var pools: seq<seq<Pointer>>
    ghost var sizes: map<nat, nat>     // how big the allocated blocks are

    /** Bytes that really lie behind a pointer. */
    ghost function Behind(p: Pointer): int
      reads this
    {
      if p.block in sizes then sizes[p.block] - p.offset else -1
    }

    /** A slice never reaches beyond its backing block. */
    ghost predicate Backed(s: Slice)
      reads this
    {
      s.Slice? ==> s.length <= s.cap <= Behind(s.at)
    }

    ghost predicate Valid()
      reads this
    {
      && |pools| == BUCKETS
      && (forall i, k :: 0 <= i < BUCKETS && 0 <= k < |pools[i]| ==> Behind(pools[i][k]) >= Pow2(i))
    }

    constructor ()
      ensures Valid() && Owned(pools, [], sizes)
    {
      pools := seq(BUCKETS, _ => []);
      sizes := map[];
      new;
      NothingOwned(pools, sizes);
    }

    /** make([]byte, cap)[:length] */
    method Make(length: nat, cap: nat, block: nat) returns (s: Slice)
      requires Valid() && length <= cap && block !in sizes
      modifies this`sizes
      ensures Valid() && Backed(s) && s.Slice? && s.length == length && s.cap == cap
      ensures sizes == old(sizes)[block := cap] && s.at == Pointer(block, 0)
      ensures forall t :: old(Backed(t)) ==> Backed(t)
    {
      sizes := sizes[block := cap];
      s := Slice(Pointer(block, 0), length, cap);
    }

    /** Get(size); block names the block that make returns. */
    method Get(size: int, block: nat) returns (s: Slice)
      requires Valid() && block !in sizes
      modifies this
      ensures Valid() && Backed(s)
      ensures if size <= 0 then s == NilSlice else s.Slice? && s.length == size
      ensures s.NilSlice? ==> pools == old(pools) && sizes == old(sizes)
      ensures s.Slice? ==>
        || (s.at == Pointer(block, 0) && pools == old(pools) && sizes == old(sizes)[block := s.cap])
        || (size <= MAX_INT32 && TakenFrom(old(pools), Index(size), s.at, pools) && sizes == old(sizes))
      ensures s.Slice? ==> s.cap == if size <= MAX_INT32 then Pow2(Index(size)) else size
      ensures forall t :: old(Backed(t)) ==> Backed(t)
    {
      if size <= 0 {
        return NilSlice;
      }
      if size > MAX_INT32 {
        s := Make(size, size, block);
        return;
      }
      var idx := Index(size);
      ClassesOf32Bits(size);
      IndexIsSmallestClass(size);
      var bucket := pools[idx];
      var cached := *;
      if |bucket| == 0 || !cached {
        // sync.Pool may have nothing, or may have dropped what it had
        s := Make(size, Pow2(idx), block);
        return;
      }
      var k: nat :| k < |bucket|;
      pools := pools[idx := bucket[..k] + bucket[k + 1..]];
      s := Slice(bucket[k], size, Pow2(idx));
    }

    /** Put(buf): a capacity that is no power of two goes one class down. */
    method Put(s: Slice)
      requires Valid() && Backed(s)
      modifies this`pools
      ensures Valid()
      ensures s.NilSlice? || s.cap == 0 || s.cap > MAX_INT32 ==> pools == old(pools)
      ensures s.Slice? && 0 < s.cap <= MAX_INT32 ==>
        exists i :: 0 <= i < BUCKETS && Pow2(i) <= s.cap < Pow2(i + 1) && pools == old(pools)[i := old(pools)[i] + [s.at]]
    {
      if s.NilSlice? || s.cap == 0 || s.cap > MAX_INT32 {
        return;
      }
      var size := s.cap;
      var idx := Index(size);
      ClassesOf32Bits(size);
      IndexIsSmallestClass(size);
      if size != Pow2(idx) {
        SmallerClass(size);
        idx := idx - 1;
      }
      assert Pow2(idx) <= s.cap < Pow2(idx + 1);
      pools := pools[idx := pools[idx] + [s.at]];
      assert pools == old(pools)[idx := old(pools)[idx] + [s.at]];
    }
  }

  lemma SmallerClass(size: nat)
    requires size > 0 && size != Pow2(Index(size))
    ensures Index(size) >= 1 && Pow2(Index(size) - 1) < size
  {
    LenIsWidth(size - 1);
  }

  // ---------------------------------------------------------------------------------------
  // Runs
  // ---------------------------------------------------------------------------------------

  datatype Use = Obtain(size: int) | Reslice(i: nat, lo: nat, hi: nat) | GiveBack(i: nat)

  lemma ObtainedNew(pools: seq<seq<Pointer>>, live: seq<Slice>, sizes: map<nat, nat>, s: Slice, sizes': map<nat, nat>)
    requires Owned(pools, live, sizes)
    requires if s.NilSlice? then sizes' == sizes else s.at.block !in sizes && sizes' == sizes[s.at.block := s.cap]
    ensures Owned(pools, live + [s], sizes')
  {
    forall b: nat ensures OwnedOnce(b, pools, live + [s], sizes') {
      assert OwnedOnce(b, pools, live, sizes);
      LiveAppend(b, live, s);
    }
  }

  lemma ObtainedCached(pools: seq<seq<Pointer>>, live: seq<Slice>, sizes: map<nat, nat>, s: Slice, i: nat, pools': seq<seq<Pointer>>)
    requires Owned(pools, live, sizes) && s.Slice? && TakenFrom(pools, i, s.at, pools')
    ensures Owned(pools', live + [s], sizes)
  {
    forall b: nat ensures OwnedOnce(b, pools', live + [s], sizes) {
      assert OwnedOnce(b, pools, live, sizes);
      TakenCounts(b, pools, i, s.at, pools');
      LiveAppend(b, live, s);
    }
  }

  lemma Resliced(pools: seq<seq<Pointer>>, live: seq<Slice>, sizes: map<nat, nat>, i: nat, s: Slice)
    requires Owned(pools, live, sizes) && i < |live| && live[i].Slice? && s.Slice? && s.at.block == live[i].at.block
    ensures Owned(pools, live[i := s], sizes)
  {
    var live' := live[i := s];
    forall b: nat ensures OwnedOnce(b, pools, live', sizes) {
      assert OwnedOnce(b, pools, live, sizes);
      LiveReplace(b, live, i, s);
    }
  }

  lemma GivenBack(pools: seq<seq<Pointer>>, live: seq<Slice>, sizes: map<nat, nat>, i: nat, pools': seq<seq<Pointer>>)
    requires Owned(pools, live, sizes) && i < |live|
    requires pools' == pools || (live[i].Slice? && exists k :: 0 <= k < |pools| && pools' == pools[k := pools[k] + [live[i].at]])
    ensures Owned(pools', live[..i] + live[i + 1..], sizes)
  {
    var rest := live[..i] + live[i + 1..];
    forall b: nat ensures OwnedOnce(b, pools', rest, sizes) {
      assert OwnedOnce(b, pools, live, sizes);
      LiveRemove(b, live, i);
      if pools' != pools {
        var k :| 0 <= k < |pools| && pools' == pools[k := pools[k] + [live[i].at]];
        PoolsReplace(b, pools, k, pools'[k]);
        BucketAppend(b, pools[k], live[i].at);
      }
    }
  }

  /** No two live slices share a block, and none shares one with a bucket. */
  ghost predicate Unshared(pools: seq<seq<Pointer>>, live: seq<Slice>) {
    && (forall i, j :: 0 <= i < j < |live| && live[i].Slice? && live[j].Slice? ==> live[i].at.block != live[j].at.block)
    && (forall i, b, k :: 0 <= i < |live| && live[i].Slice? && 0 <= b < |pools| && 0 <= k < |pools[b]| ==>
          live[i].at.block != pools[b][k].block)
  }

  lemma OwnedIsUnshared(pools: seq<seq<Pointer>>, live: seq<Slice>, sizes: map<nat, nat>)
    requires Owned(pools, live, sizes)
    ensures Unshared(pools, live)
  {
    forall i, j | 0 <= i < j < |live| && live[i].Slice? && live[j].Slice? ensures live[i].at.block != live[j].at.block {
      assert OwnedOnce(live[i].at.block, pools, live, sizes);
      if live[i].at.block == live[j].at.block {
        TwiceInLive(live, i, j);
      }
    }
    forall i, b, k | 0 <= i < |live| && live[i].Slice? && 0 <= b < |pools| && 0 <= k < |pools[b]|
      ensures live[i].at.block != pools[b][k].block
    {
      assert OwnedOnce(live[i].at.block, pools, live, sizes);
      LiveRemove(live[i].at.block, live, i);
      CountedInPools(pools, b, k);
    }
  }

  /**
   Any mix of Get, re-slicing s[lo:hi] and Put, every slice given back once: no slice the pool ever
   hands out reaches beyond its block, although re-sliced buffers come back with odd capacities,
   and no two live slices share a block, nor does a live slice with a cached one.
   */
  method RunPool(pool: Pool, uses: seq<Use>, firstBlock: nat) returns (live: seq<Slice>)
    requires pool.Valid() && forall b :: b in pool.sizes ==> b < firstBlock
    requires Owned(pool.pools, [], pool.sizes)
    modifies pool
    ensures pool.Valid() && forall i :: 0 <= i < |live| ==> pool.Backed(live[i])
    ensures Unshared(pool.pools, live)
  {
    live := [];
    var next := firstBlock;
    for u := 0 to |uses|
      invariant pool.Valid() && forall i :: 0 <= i < |live| ==> pool.Backed(live[i])
      invariant Owned(pool.pools, live, pool.sizes) && forall b :: b in pool.sizes ==> b < next
    {
      live := RunUse(pool, uses[u], live, next);
      next := next + 1;
    }
    OwnedIsUnshared(pool.pools, live, pool.sizes);
  }

  /** One use; block names a block that is not in use. */
  method RunUse(pool: Pool, use: Use, live: seq<Slice>, block: nat) returns (live': seq<Slice>)
    requires pool.Valid() && forall i :: 0 <= i < |live| ==> pool.Backed(live[i])
    requires Owned(pool.pools, live, pool.sizes) && block !in pool.sizes
    modifies pool
    ensures pool.Valid() && forall i :: 0 <= i < |live'| ==> pool.Backed(live'[i])
    ensures Owned(pool.pools, live', pool.sizes) && pool.sizes.Keys <= old(pool.sizes.Keys) + {block}
  {
    live' := live;
    match use {
      case Obtain(size) =>
        var s := pool.Get(size, block);
        live' := live + [s];
        if s.Slice? && s.at.block in old(pool.sizes) {
          ObtainedCached(old(pool.pools), live, pool.sizes, s, Index(size), pool.pools);
        } else {
          ObtainedNew(pool.pools, live, old(pool.sizes), s, pool.sizes);
        }
      case Reslice(i, lo, hi) =>
        if i < |live| && live[i].Slice? && lo <= hi <= live[i].cap {
          var s := Slice(Pointer(live[i].at.block, live[i].at.offset + lo), hi - lo, live[i].cap - lo);
          Resliced(pool.pools, live, pool.sizes, i, s);
          live' := live[i := s];
        }
      case GiveBack(i) =>
        if i < |live| {
          pool.Put(live[i]);
          GivenBack(old(pool.pools), live, pool.sizes, i, pool.pools);
          live' := live[..i] + live[i + 1..];
        }
    }
  }
}

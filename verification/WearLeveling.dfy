/** calculateWearLeveling of ftl/page_mapping.cc. */
module WearLeveling {
  import opened FlashBlock
  import opened FtlModel
  import opened FtlInvariant

  datatype Sums = Sums(total: nat, squares: nat)

  function Plus(a: Sums, eraseCount: nat): Sums {
    Sums(a.total + eraseCount, a.squares + eraseCount * eraseCount)
  }

  /** Over the blocks in use with an index below n */
  function InUse(blocks: map<nat, BlockView>, n: nat): Sums {
    if n == 0 then Sums(0, 0)
    else if n - 1 in blocks then Plus(InUse(blocks, n - 1), blocks[n - 1].eraseCount)
    else InUse(blocks, n - 1)
  }

  /** On top of start, over the whole list */
  function Whole(free: seq<BlockView>, start: Sums): Sums {
    if free == [] then start
    else Whole(free[..|free| - 1], Plus(start, free[|free| - 1].eraseCount))
  }

  /** Every block that is in use or free */
  function FullScan(c: Config, s: Ftl): Sums {
    Whole(s.free, InUse(s.blocks, c.totalBlocks))
  }

  lemma {:induction false} WholeOfZeros(free: seq<BlockView>, start: Sums)
    requires forall i :: 0 <= i < |free| ==> free[i].eraseCount == 0
    ensures Whole(free, start) == start
  {
    if free != [] {
      WholeOfZeros(free[..|free| - 1], start);
    }
  }

  /** In a sorted list everything in front of a block that was never erased was never erased. */
  lemma ZerosInFront(free: seq<BlockView>, k: nat, start: Sums)
    requires Ordered(free) && k < |free| && free[k].eraseCount == 0
    ensures Whole(free[..k + 1], start) == start
  {
    forall i | 0 <= i < k + 1 ensures free[i].eraseCount == 0 {
      assert i < k ==> Before(free[i], free[k]);
    }
    WholeOfZeros(free[..k + 1], start);
  }

  // ---------------------------------------------------------------------------------------
  // What the sums say

  /** The blocks in use with an index below n */
  ghost function Counted(blocks: map<nat, BlockView>, n: nat): set<nat> {
    set b: nat | b < n && b in blocks
  }

  lemma CountedNext(blocks: map<nat, BlockView>, n: nat)
    ensures |Counted(blocks, 0)| == 0
    ensures |Counted(blocks, n + 1)| == |Counted(blocks, n)| + if n in blocks then 1 else 0
  {
    assert Counted(blocks, 0) == {};
    assert Counted(blocks, n + 1) == if n in blocks then Counted(blocks, n) + {n} else Counted(blocks, n);
  }

  /** The square of a sum is at most the number of its terms times the sum of their squares. */
  ghost predicate Bounded(s: Sums, n: nat) {
    s.total * s.total <= n * s.squares && (s.squares == 0 <==> s.total == 0)
  }

  lemma Square(x: nat, y: nat)
    ensures 2 * x * y <= x * x + y * y
  {
    assert (x - y) * (x - y) >= 0;
  }

  lemma PlusBounded(s: Sums, n: nat, x: nat)
    requires Bounded(s, n)
    ensures Bounded(Plus(s, x), n + 1)
  {
    var a, q := s.total, s.squares;
    Cross(a, q, n, x);
    calc {
      (a + x) * (a + x);
      a * a + 2 * a * x + x * x;
    <=
      n * q + (n * (x * x) + q) + x * x;
      (n + 1) * (q + x * x);
    }
    assert x * x == 0 <==> x == 0;
  }

  lemma Cross(a: nat, q: nat, n: nat, x: nat)
    requires a * a <= n * q
    ensures 2 * a * x <= n * (x * x) + q
  {
    if n == 0 {
      assert a == 0;
    } else {
      var left, right := 2 * a * x, n * (x * x) + q;
      Square(n * x, a);
      assert n * left == 2 * (n * x) * a;
      assert n * right == (n * x) * (n * x) + n * q;
      assert n * left <= n * right;
      Divide(n, left, right);
    }
  }

  lemma Divide(n: nat, a: nat, b: nat)
    requires 0 < n && n * a <= n * b
    ensures a <= b
  {
    assert a >= b + 1 ==> n * a >= n * (b + 1);
  }

  lemma PlusZero(s: Sums, x: nat)
    ensures Plus(s, x).squares == 0 <==> s.squares == 0 && x == 0
  {
    assert x * x == 0 <==> x == 0;
  }

  lemma NothingBounded()
    ensures Bounded(Sums(0, 0), 0)
  {
  }

  lemma {:induction false} InUseBounded(blocks: map<nat, BlockView>, n: nat)
    ensures Bounded(InUse(blocks, n), |Counted(blocks, n)|)
    ensures InUse(blocks, n).squares == 0 <==> forall b: nat :: b < n && b in blocks ==> blocks[b].eraseCount == 0
  {
    hide Bounded, Plus, Counted;
    CountedNext(blocks, if n == 0 then 0 else n - 1);
    NothingBounded();
    if n > 0 {
      InUseBounded(blocks, n - 1);
      if n - 1 in blocks {
        PlusBounded(InUse(blocks, n - 1), |Counted(blocks, n - 1)|, blocks[n - 1].eraseCount);
        PlusZero(InUse(blocks, n - 1), blocks[n - 1].eraseCount);
      }
    }
  }

  lemma {:induction false} WholeBounded(free: seq<BlockView>, start: Sums, n: nat)
    requires Bounded(start, n)
    ensures Bounded(Whole(free, start), n + |free|)
    ensures Whole(free, start).squares == 0 <==>
      start.squares == 0 && forall i :: 0 <= i < |free| ==> free[i].eraseCount == 0
    decreases |free|
  {
    hide Bounded, Plus;
    if free != [] {
      var x := free[|free| - 1].eraseCount;
      PlusBounded(start, n, x);
      PlusZero(start, x);
      WholeBounded(free[..|free| - 1], Plus(start, x), n + 1);
    }
  }

  /** No block, in use or free, was ever erased. */
  ghost predicate Unworn(s: Ftl) {
    (forall b :: b in s.blocks ==> s.blocks[b].eraseCount == 0) && forall v :: v in s.free ==> v.eraseCount == 0
  }

  lemma InUseInRange(c: Config, s: Ftl)
    requires Inv(c, s)
    ensures Counted(s.blocks, c.totalBlocks) == s.blocks.Keys
  {
    hide Shape, TableSound, SlotsMapped;
  }

  lemma ScanBounded(c: Config, s: Ftl)
    requires Inv(c, s)
    ensures Bounded(FullScan(c, s), |s.blocks| + |s.free|) && (FullScan(c, s).squares == 0 <==> Unworn(s))
  {
    hide Bounded, Counted, InUse, Whole, Inv;
    InUseInRange(c, s);
    InUseBounded(s.blocks, c.totalBlocks);
    WholeBounded(s.free, InUse(s.blocks, c.totalBlocks), |s.blocks|);
    assert forall b :: b in s.blocks ==> b in Counted(s.blocks, c.totalBlocks);
    CountedRange(s.blocks, c.totalBlocks);
  }

  lemma CountedRange(blocks: map<nat, BlockView>, n: nat)
    ensures forall b :: b in Counted(blocks, n) ==> b < n
  {
  }

  lemma FreeOrdered(c: Config, s: Ftl)
    requires Inv(c, s)
    ensures Ordered(s.free)
  {
    hide Shape, TableSound, SlotsMapped;
  }

  lemma ScanParts(c: Config, s: Ftl)
    ensures FullScan(c, s) == Whole(s.free, InUse(s.blocks, c.totalBlocks))
  {
  }

  /** The scan of the free list from the back, which stops at the first block that was never
      erased, gives the sums of a full scan, because the list is sorted. */
  method ScanEraseCounts(c: Config, blocks: map<nat, BlockView>, freeBlocks: seq<BlockView>, ghost s: Ftl)
    returns (sums: Sums)
    requires Inv(c, s) && blocks == s.blocks && freeBlocks == s.free
    ensures sums == FullScan(c, s)
  {
    hide Plus, Inv, FullScan;
    FreeOrdered(c, s);
    ScanParts(c, s);
    sums := Sums(0, 0);
    for b := 0 to c.totalBlocks
      invariant sums == InUse(blocks, b)
    {
      if b in blocks {
        sums := Plus(sums, blocks[b].eraseCount);
      }
    }
    var k := |freeBlocks|;
    assert freeBlocks[..k] == freeBlocks;
    while 0 < k
      invariant 0 <= k <= |freeBlocks|
      invariant Whole(freeBlocks[..k], sums) == FullScan(c, s)
    {
      if freeBlocks[k - 1].eraseCount == 0 {
        ZerosInFront(freeBlocks, k - 1, sums);
        return;
      }
      assert freeBlocks[..k][..k - 1] == freeBlocks[..k - 1];
      sums := Plus(sums, freeBlocks[k - 1].eraseCount);
      k := k - 1;
    }
  }

  /** The index is -1 exactly when no block was ever erased.  Otherwise it is positive, and at most the
      number of blocks that are not retired for each logical block. */
  method CalculateWearLeveling(c: Config, blocks: map<nat, BlockView>, freeBlocks: seq<BlockView>, numOfBlocks: nat,
                               ghost s: Ftl)
    returns (r: real)
    requires Inv(c, s) && blocks == s.blocks && freeBlocks == s.free && 0 < numOfBlocks
    ensures var sums := FullScan(c, s);
      r == if sums.squares == 0 then -1.0 else (sums.total * sums.total) as real / (numOfBlocks * sums.squares) as real
    ensures r == -1.0 <==> Unworn(s)
    ensures r != -1.0 ==> 0.0 < r && r * numOfBlocks as real <= (|blocks| + |freeBlocks|) as real
  {
    hide Inv, FullScan, Unworn;
    var sums := ScanEraseCounts(c, blocks, freeBlocks, s);
    ScanBounded(c, s);
    if sums.squares == 0 {
      return -1.0;
    }
    r := (sums.total * sums.total) as real / (numOfBlocks * sums.squares) as real;
  }
}

/** What every operation of the translation layer keeps: the table and the valid slots are
    inverse to each other, and the free list is sorted and holds exactly the blocks that are
    neither in use nor retired. */
module FtlInvariant {
  import opened Outcome
  import opened FlashBlock
  import opened FtlModel
  import Q = RefreshQueues

  type Unit = (nat, nat)   // (lpn, unit)

  predicate Live(s: Ftl, b: nat, p: nat, u: nat) {
    b in s.blocks && p < |s.blocks[b].valid| && u < |s.blocks[b].valid[p]| && s.blocks[b].valid[p][u]
  }

  /** The LPN tag of a slot. */
  ghost function Tag(s: Ftl, b: nat, p: nat, u: nat): nat {
    if b in s.blocks && p < |s.blocks[b].lpns| && u < |s.blocks[b].lpns[p]| then s.blocks[b].lpns[p][u] else 0
  }

  /** The flash contents of a slot. */
  ghost function Contents(s: Ftl, b: nat, p: nat, u: nat): nat {
    if b in s.blocks && p < |s.blocks[b].data| && u < |s.blocks[b].data[p]| then s.blocks[b].data[p][u] else 0
  }

  /** The slot holds (l, u). */
  ghost predicate Holds(s: Ftl, loc: Loc, l: nat, u: nat) {
    Live(s, loc.block, loc.page, u) && Tag(s, loc.block, loc.page, u) == l
  }

  /** Every entry outside hole is the sentinel or points to a valid slot with its tag. */
  ghost predicate TableSound(c: Config, s: Ftl, hole: set<Unit>) {
    forall l: nat, u: nat :: l in s.table && u < |s.table[l]| && (l, u) !in hole ==>
      s.table[l][u] == Sentinel(c) || Holds(s, s.table[l][u], l, u)
  }

  /** Every valid slot is the one that the entry of its tag points to. */
  ghost predicate SlotsMapped(s: Ftl, hole: set<Unit>) {
    forall b: nat, p: nat, u: nat :: Live(s, b, p, u) ==>
      var l := Tag(s, b, p, u);
      l in s.table && u < |s.table[l]| && (l, u) !in hole && s.table[l][u] == Loc(b, p)
  }

  ghost predicate Clean(v: BlockView) {
    && (forall u :: 0 <= u < |v.next| ==> v.next[u] == 0)
    && (forall p, u :: 0 <= p < |v.valid| && 0 <= u < |v.valid[p]| ==> !v.valid[p][u])
  }

  ghost function Indices(free: seq<BlockView>): set<nat> {
    set v | v in free :: v.idx
  }

  ghost predicate Before(a: BlockView, b: BlockView) {
    a.eraseCount <= b.eraseCount && a.idx != b.idx
  }

  /** Sorted by wear and without duplicates. */
  ghost predicate Ordered(free: seq<BlockView>) {
    forall i, j {:trigger Before(free[i], free[j])} :: 0 <= i < j < |free| ==> Before(free[i], free[j])
  }

  /** The free blocks are erased and kept in order; the blocks in use, the free and the retired
      ones partition the physical blocks. */
  ghost predicate FreeOk(c: Config, s: Ftl) {
    && (forall v :: v in s.free ==> Clean(v))
    && Ordered(s.free)
    && s.blocks.Keys !! Indices(s.free) !! s.retired
    && (forall b: nat :: b in s.blocks.Keys || b in Indices(s.free) || b in s.retired <==> b < c.totalBlocks)
  }

  ghost predicate Core(c: Config, s: Ftl, hole: set<Unit>) {
    ConfigOk(c) && Shape(c, s) && FreeOk(c, s) && TableSound(c, s, hole) && SlotsMapped(s, hole)
  }

  ghost predicate Inv(c: Config, s: Ftl) {
    Core(c, s, {})
  }

  /** What a look-up of (l, u) finds on the flash. */
  ghost function Lookup(s: Ftl, l: nat, u: nat): Option<nat> {
    if l in s.table && u < |s.table[l]| && Holds(s, s.table[l][u], l, u) then
      Some(Contents(s, s.table[l][u].block, s.table[l][u].page, u))
    else None
  }

  /** t looks up the same as s, except that (l, u) yields r. */
  ghost predicate Updated(s: Ftl, t: Ftl, l: nat, u: nat, r: Option<nat>) {
    Lookup(t, l, u) == r && forall m: nat, w: nat :: (m, w) != (l, u) ==> Lookup(t, m, w) == Lookup(s, m, w)
  }

  ghost predicate SameLookup(s: Ftl, t: Ftl) {
    forall l: nat, u: nat :: Lookup(t, l, u) == Lookup(s, l, u)
  }

  /** s and t have the same slots, apart from slot (b, page, u). */
  ghost predicate SameSlotsBut(s: Ftl, t: Ftl, b: nat, page: nat, u: nat) {
    forall x: nat, p: nat, w: nat :: (x, p, w) != (b, page, u) ==>
      && Live(t, x, p, w) == Live(s, x, p, w)
      && Tag(t, x, p, w) == Tag(s, x, p, w)
      && Contents(t, x, p, w) == Contents(s, x, p, w)
  }

  ghost predicate SameSlots(s: Ftl, t: Ftl) {
    forall x: nat, p: nat, w: nat ::
      && Live(t, x, p, w) == Live(s, x, p, w)
      && Tag(t, x, p, w) == Tag(s, x, p, w)
      && Contents(t, x, p, w) == Contents(s, x, p, w)
  }

  /** The same blocks are in use, with the same next pages. */
  ghost predicate SameNext(s: Ftl, t: Ftl) {
    t.blocks.Keys == s.blocks.Keys && forall x :: x in s.blocks ==> t.blocks[x].next == s.blocks[x].next
  }

  /** ... except that unit u of block b has advanced by one page. */
  ghost predicate Advanced(s: Ftl, t: Ftl, b: nat, u: nat) {
    && t.blocks.Keys == s.blocks.Keys && b in s.blocks && u < |s.blocks[b].next|
    && (forall x :: x in s.blocks && x != b ==> t.blocks[x].next == s.blocks[x].next)
    && t.blocks[b].next == s.blocks[b].next[u := s.blocks[b].next[u] + 1]
  }

  // ---------------------------------------------------------------------------------------
  // Single steps

  lemma FreeFrame(c: Config, s: Ftl, t: Ftl)
    requires FreeOk(c, s) && t.blocks.Keys == s.blocks.Keys && t.free == s.free && t.retired == s.retired
    ensures FreeOk(c, t)
  {
  }

  lemma UpdateSlots(s: Ftl, t: Ftl, b: nat, page: nat, u: nat)
    requires b in s.blocks && t.blocks.Keys == s.blocks.Keys
    requires forall x :: x in s.blocks && x != b ==> t.blocks[x] == s.blocks[x]
    requires SameBut(s.blocks[b].valid, t.blocks[b].valid, page, u)
    requires SameBut(s.blocks[b].lpns, t.blocks[b].lpns, page, u)
    requires SameBut(s.blocks[b].data, t.blocks[b].data, page, u)
    ensures SameSlotsBut(s, t, b, page, u)
  {
  }

  lemma KillSlots(c: Config, s: Ftl, b: nat, page: nat, u: nat)
    requires ConfigOk(c) && Shape(c, s) && b in s.blocks && page < c.pagesInBlock && u < c.ioUnits
    ensures var t := KillUnit(c, s, b, page, u);
      && SameSlotsBut(s, t, b, page, u) && !Live(t, b, page, u)
      && t.table == s.table && SameNext(s, t)
  {
    assert BlockOk(s.blocks[b], c.pagesInBlock, c.ioUnits);
    InvalidateSame(s.blocks[b], page, u, c.pagesInBlock, c.ioUnits);
    hide Shape, ConfigOk, BlockOk, Invalidate, SameSlotsBut, SameBut;
    UpdateSlots(s, KillUnit(c, s, b, page, u), b, page, u);
  }

  lemma KillMapping(c: Config, s: Ftl, t: Ftl, b: nat, page: nat, u: nat, hole: set<Unit>)
    requires TableSound(c, s, hole) && SlotsMapped(s, hole) && Live(s, b, page, u)
    requires SameSlotsBut(s, t, b, page, u) && !Live(t, b, page, u) && t.table == s.table
    ensures TableSound(c, t, hole + {(Tag(s, b, page, u), u)})
    ensures SlotsMapped(t, hole + {(Tag(s, b, page, u), u)})
    ensures Updated(s, t, Tag(s, b, page, u), u, None)
  {
    hide Live, Tag, Contents;
    var l := Tag(s, b, page, u);
    assert s.table[l][u] == Loc(b, page);
    forall m: nat, w: nat | m in t.table && w < |t.table[m]| && (m, w) != (l, u)
      ensures Lookup(t, m, w) == Lookup(s, m, w)
      ensures Holds(s, s.table[m][w], m, w) ==> Holds(t, t.table[m][w], m, w)
    {
      var loc := s.table[m][w];
      assert (loc.block, loc.page, w) == (b, page, u) ==> !Holds(s, loc, m, w);
    }
  }

  /** Invalidating a valid slot unmaps exactly its (lpn, unit). */
  lemma KillCore(c: Config, s: Ftl, b: nat, page: nat, u: nat, hole: set<Unit>)
    requires Core(c, s, hole) && Live(s, b, page, u) && page < c.pagesInBlock && u < c.ioUnits
    ensures var l := Tag(s, b, page, u);
      var t := KillUnit(c, s, b, page, u);
      Core(c, t, hole + {(l, u)}) && Updated(s, t, l, u, None)
  {
    var t := KillUnit(c, s, b, page, u);
    KillSlots(c, s, b, page, u);
    FreeFrame(c, s, t);
    KillMapping(c, s, t, b, page, u, hole);
  }

  /** From s to t, the next slot of unit u in block b was programmed and mapped. */
  ghost predicate Placed(s: Ftl, t: Ftl, lpn: nat, u: nat, b: nat, page: nat, d: nat)
    requires lpn in s.table && u < |s.table[lpn]|
  {
    && SameSlotsBut(s, t, b, page, u) && !Live(s, b, page, u)
    && Live(t, b, page, u) && Tag(t, b, page, u) == lpn && Contents(t, b, page, u) == d
    && t.table == s.table[lpn := s.table[lpn][u := Loc(b, page)]]
    && Advanced(s, t, b, u) && t.free == s.free && t.retired == s.retired
  }

  lemma ProgrammedSlots(s: Ftl, t: Ftl, b: nat, page: nat, u: nat, lpn: nat, d: nat)
    requires b in s.blocks && t.blocks.Keys == s.blocks.Keys
    requires forall x :: x in s.blocks && x != b ==> t.blocks[x] == s.blocks[x]
    requires Programmed(s.blocks[b], t.blocks[b], page, u, lpn, d) && page == s.blocks[b].next[u]
    ensures SameSlotsBut(s, t, b, page, u) && !Live(s, b, page, u)
    ensures Live(t, b, page, u) && Tag(t, b, page, u) == lpn && Contents(t, b, page, u) == d
    ensures Advanced(s, t, b, u)
  {
    UpdateSlots(s, t, b, page, u);
  }

  lemma PlaceFields(c: Config, s: Ftl, lpn: nat, u: nat, b: nat, d: nat)
    requires ConfigOk(c) && Shape(c, s) && lpn in s.table && u < Units(c)
    requires b in s.blocks && s.blocks[b].next[u] < c.pagesInBlock
    ensures var v := s.blocks[b];
      var w := Write(v, v.next[u], lpn, u, d, c.pagesInBlock, c.ioUnits);
      var r := PlaceUnit(c, s, lpn, u, b, d);
      && w.Ok? && Programmed(v, w.value, v.next[u], u, lpn, d) && r.Ok?
      && r.value.blocks == s.blocks[b := w.value]
      && r.value.table == s.table[lpn := s.table[lpn][u := Loc(b, v.next[u])]]
      && r.value.free == s.free && r.value.retired == s.retired
  {
    WriteProgrammed(s.blocks[b], lpn, u, d, c.pagesInBlock, c.ioUnits);
    hide Write, Programmed, BlockOk, Q.SetPeriod;
  }

  lemma PlaceSlots(c: Config, s: Ftl, lpn: nat, u: nat, b: nat, d: nat)
    requires ConfigOk(c) && Shape(c, s) && lpn in s.table && u < Units(c)
    requires b in s.blocks && s.blocks[b].next[u] < c.pagesInBlock
    ensures var r := PlaceUnit(c, s, lpn, u, b, d);
      r.Ok? && Placed(s, r.value, lpn, u, b, s.blocks[b].next[u], d)
  {
    PlaceFields(c, s, lpn, u, b, d);
    hide PlaceUnit, Write, Programmed, BlockOk, SameSlotsBut, Live, Tag, Contents, Advanced;
    ProgrammedSlots(s, PlaceUnit(c, s, lpn, u, b, d).value, b, s.blocks[b].next[u], u, lpn, d);
  }

  lemma PlaceUpdates(c: Config, s: Ftl, t: Ftl, lpn: nat, u: nat, b: nat, page: nat, d: nat, m: nat, w: nat)
    requires lpn in s.table && u < |s.table[lpn]| && Placed(s, t, lpn, u, b, page, d)
    requires m in t.table && w < |t.table[m]| && (m, w) != (lpn, u)
    ensures Lookup(t, m, w) == Lookup(s, m, w) && s.table[m][w] == t.table[m][w]
    ensures Holds(s, s.table[m][w], m, w) ==> Holds(t, t.table[m][w], m, w)
  {
    hide Live, Tag, Contents;
    var loc := s.table[m][w];
    assert t.table[m][w] == loc;
    assert (loc.block, loc.page, w) == (b, page, u) ==> !Holds(s, loc, m, w);
  }

  lemma PlaceMapped(c: Config, s: Ftl, t: Ftl, lpn: nat, u: nat, b: nat, page: nat, d: nat, hole: set<Unit>)
    requires SlotsMapped(s, hole) && lpn in s.table && u < |s.table[lpn]|
    requires (lpn, u) in hole || !Live(s, s.table[lpn][u].block, s.table[lpn][u].page, u)
    requires Placed(s, t, lpn, u, b, page, d)
    ensures SlotsMapped(t, hole - {(lpn, u)})
  {
    hide Live, Tag, Contents;
  }

  lemma PlaceMapping(c: Config, s: Ftl, t: Ftl, lpn: nat, u: nat, b: nat, page: nat, d: nat, hole: set<Unit>)
    requires TableSound(c, s, hole) && SlotsMapped(s, hole) && lpn in s.table && u < |s.table[lpn]|
    requires (lpn, u) in hole || (s.table[lpn][u] == Sentinel(c) && c.totalBlocks !in s.blocks)
    requires Placed(s, t, lpn, u, b, page, d)
    ensures TableSound(c, t, hole - {(lpn, u)})
    ensures SlotsMapped(t, hole - {(lpn, u)})
    ensures Updated(s, t, lpn, u, Some(d))
  {
    hide Tag, Contents, SlotsMapped;
    assert Live(s, s.table[lpn][u].block, s.table[lpn][u].page, u) ==> s.table[lpn][u].block in s.blocks;
    PlaceMapped(c, s, t, lpn, u, b, page, d, hole);
    hide Live;
    forall m: nat, w: nat | m in t.table && w < |t.table[m]| && (m, w) != (lpn, u)
      ensures Lookup(t, m, w) == Lookup(s, m, w) && s.table[m][w] == t.table[m][w]
      ensures Holds(s, s.table[m][w], m, w) ==> Holds(t, t.table[m][w], m, w)
    {
      PlaceUpdates(c, s, t, lpn, u, b, page, d, m, w);
    }
  }

  /** Programming the next slot of a block whose unit is not full maps (lpn, u) to it. */
  lemma PlaceCore(c: Config, s: Ftl, lpn: nat, u: nat, b: nat, d: nat, hole: set<Unit>)
    requires Core(c, s, hole) && lpn in s.table && u < Units(c)
    requires b in s.blocks && s.blocks[b].next[u] < c.pagesInBlock
    requires (lpn, u) in hole || s.table[lpn][u] == Sentinel(c)
    ensures var r := PlaceUnit(c, s, lpn, u, b, d);
      r.Ok? && Core(c, r.value, hole - {(lpn, u)}) && Updated(s, r.value, lpn, u, Some(d))
  {
    PlaceSlots(c, s, lpn, u, b, d);
    var t := PlaceUnit(c, s, lpn, u, b, d).value;
    assert t.blocks.Keys == s.blocks.Keys && c.totalBlocks !in s.blocks;
    hide Shape, Live, Tag, Contents, PlaceUnit;
    FreeFrame(c, s, t);
    PlaceMapping(c, s, t, lpn, u, b, s.blocks[b].next[u], d, hole);
  }

  // ---------------------------------------------------------------------------------------
  // Taking and returning free blocks

  /** s and t have the same valid slots. */
  ghost predicate SameLive(s: Ftl, t: Ftl) {
    forall x: nat, p: nat, w: nat ::
      && Live(t, x, p, w) == Live(s, x, p, w)
      && (Live(s, x, p, w) ==> Tag(t, x, p, w) == Tag(s, x, p, w) && Contents(t, x, p, w) == Contents(s, x, p, w))
  }

  lemma SameLiveMapping(c: Config, s: Ftl, t: Ftl, hole: set<Unit>)
    requires SameLive(s, t) && t.table == s.table
    ensures SameLookup(s, t)
    ensures TableSound(c, s, hole) && SlotsMapped(s, hole) ==> TableSound(c, t, hole) && SlotsMapped(t, hole)
  {
    hide Live, Tag, Contents;
  }

  lemma RemoveOrdered(free: seq<BlockView>, k: nat)
    requires Ordered(free) && k < |free|
    ensures Ordered(free[..k] + free[k + 1..])
  {
    var r := free[..k] + free[k + 1..];
    forall i, j | 0 <= i < j < |r| ensures Before(r[i], r[j]) {
      var i', j' := if i < k then i else i + 1, if j < k then j else j + 1;
      assert r[i] == free[i'] && r[j] == free[j'];
      assert Before(free[i'], free[j']);
    }
  }

  lemma RemoveIndices(free: seq<BlockView>, k: nat)
    requires Ordered(free) && k < |free|
    ensures free[k].idx in Indices(free)
    ensures Indices(free[..k] + free[k + 1..]) == Indices(free) - {free[k].idx}
  {
    var r := free[..k] + free[k + 1..];
    forall i | 0 <= i < |free| && i != k ensures free[i] in r && free[i].idx != free[k].idx {
      assert if i < k then Before(free[i], free[k]) else Before(free[k], free[i]);
      assert r[if i < k then i else i - 1] == free[i];
    }
    forall i | 0 <= i < |r| ensures r[i] in free && r[i].idx != free[k].idx {
      var i' := if i < k then i else i + 1;
      assert r[i] == free[i'];
    }
  }

  lemma InsertOrdered(free: seq<BlockView>, k: nat, v: BlockView)
    requires Ordered(free) && v.idx !in Indices(free) && k <= |free|
    requires forall j :: k <= j < |free| ==> v.eraseCount < free[j].eraseCount
    requires 0 < k ==> free[k - 1].eraseCount <= v.eraseCount
    ensures Ordered(free[..k] + [v] + free[k..])
  {
    var r := free[..k] + [v] + free[k..];
    forall i | 0 <= i < |free|
      ensures if i < k then Before(free[i], v) else Before(v, free[i])
    {
      assert free[i] in free && free[i].idx in Indices(free);
      if i < k - 1 {
        assert Before(free[i], free[k - 1]);
      }
    }
    forall i, j | 0 <= i < j < |r| ensures Before(r[i], r[j]) {
      var i', j' := if i < k then i else i - 1, if j < k then j else j - 1;
      assert i != k && j != k ==> r[i] == free[i'] && r[j] == free[j'] && Before(free[i'], free[j']);
    }
  }

  lemma InsertIndices(free: seq<BlockView>, k: nat, v: BlockView)
    requires k <= |free|
    ensures Indices(free[..k] + [v] + free[k..]) == Indices(free) + {v.idx}
  {
    var r := free[..k] + [v] + free[k..];
    assert free == free[..k] + free[k..];
    assert forall x :: x in r <==> x in free || x == v;
  }

  /** Taking element k out of the free list and putting it in use. */
  lemma TakeFreeOk(c: Config, s: Ftl, t: Ftl, k: nat)
    requires FreeOk(c, s) && k < |s.free| && t.retired == s.retired
    requires t.free == s.free[..k] + s.free[k + 1..] && t.blocks.Keys == s.blocks.Keys + {s.free[k].idx}
    ensures FreeOk(c, t) && s.free[k].idx !in s.blocks
  {
    RemoveOrdered(s.free, k);
    RemoveIndices(s.free, k);
    assert forall v :: v in t.free ==> v in s.free;
    hide Ordered, Clean, Indices;
  }

  lemma AddClean(s: Ftl, t: Ftl, b: nat)
    requires b !in s.blocks && t.blocks.Keys == s.blocks.Keys + {b} && Clean(t.blocks[b])
    requires forall x :: x in s.blocks ==> t.blocks[x] == s.blocks[x]
    ensures SameLive(s, t)
  {
  }

  lemma TakenClean(c: Config, s: Ftl, k: nat)
    requires FreeOk(c, s) && k < |s.free| == s.nFree
    ensures Clean(TakeFree(s, k).blocks[s.free[k].idx])
  {
    assert s.free[k] in s.free;
    hide Indices;
  }

  /** getFreeBlock: it fails exactly when no block is free; otherwise an erased block comes into use. */
  lemma GetFreeCore(c: Config, s: Ftl, idx: nat, hole: set<Unit>)
    requires Core(c, s, hole) && idx < c.maxPerf
    ensures var r := GetFreeBlock(c, s, idx);
      && (r.Panic? <==> s.free == []) && (r.Panic? ==> r.why == NoFreeBlock)
      && (r.Ok? ==>
        var (t, b) := r.value;
        && Core(c, t, hole) && SameLookup(s, t)
        && b !in s.blocks && Clean(t.blocks[b]) && t.blocks == s.blocks[b := t.blocks[b]]
        && t.retired == s.retired && |t.free| == |s.free| - 1)
  {
    hide FreeOk, Shape, Clean, Indices, TakenIndex, TableSound, SlotsMapped, SameLookup, ConfigOk;
    FreeCount(c, s);
    if s.free != [] {
      var k := TakenIndex(c, s.free, idx);
      TakenClean(c, s, k);
      TakeFreeShape(c, s, k);
      TakeFreeOk(c, s, TakeFree(s, k), k);
      AddClean(s, TakeFree(s, k), s.free[k].idx);
      SameLiveMapping(c, s, TakeFree(s, k), hole);
    }
  }

  /** getFreeBlock takes a least-worn block of the requested residue class or, when no free
      block has that residue, a least-worn block of the whole list. */
  lemma GetFreeLeastWorn(c: Config, s: Ftl, idx: nat, v: BlockView)
    requires Inv(c, s) && idx < c.maxPerf && v in s.free
    requires v.idx % c.maxPerf == idx || forall w :: w in s.free ==> w.idx % c.maxPerf != idx
    ensures var r := GetFreeBlock(c, s, idx);
      && r.Ok?
      && r.value.0.blocks[r.value.1].eraseCount <= v.eraseCount
      && (v.idx % c.maxPerf == idx ==> r.value.1 % c.maxPerf == idx)
  {
    hide Shape, TableSound, SlotsMapped, ConfigOk, SameLookup, Lookup, Clean, Indices;
    GetFreeCore(c, s, idx, {});
    FreeCount(c, s);
    var i :| 0 <= i < |s.free| && s.free[i] == v;
    var k := TakenIndex(c, s.free, idx);
    assert s.free[k] in s.free;
    assert k <= i && (k < i ==> Before(s.free[k], s.free[i]));
  }

  /** The free list stays sorted and complete when an erased block is put at its place. */
  lemma ReturnFreeOk(c: Config, s: Ftl, t: Ftl, b: nat, v: BlockView, k: nat)
    requires FreeOk(c, s) && b in s.blocks && v.idx == b && Clean(v) && k <= |s.free|
    requires forall j :: k <= j < |s.free| ==> v.eraseCount < s.free[j].eraseCount
    requires 0 < k ==> s.free[k - 1].eraseCount <= v.eraseCount
    requires t.free == s.free[..k] + [v] + s.free[k..] && t.blocks == s.blocks - {b} && t.retired == s.retired
    ensures FreeOk(c, t)
  {
    InsertOrdered(s.free, k, v);
    InsertIndices(s.free, k, v);
    assert forall x :: x in t.free ==> x in s.free || x == v;
    hide Ordered, Clean, Indices;
  }
}

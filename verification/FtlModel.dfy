/** The page-mapping translation layer of ftl/page_mapping.cc as functions on a state value:
    every operation up to its GC decision, with each panic as an explicit outcome.  Hot/cold
    separation is off.  Class PageMapping is proved equal to these functions. */
module FtlModel {
  import opened Outcome
  import opened FlashBlock
  import Q = RefreshQueues

  datatype Option<+T> = None | Some(value: T)

  datatype Loc = Loc(block: nat, page: nat)

  datatype Config = Config(
    totalBlocks: nat, pagesInBlock: nat, ioUnits: nat,
    maxPerf: nat,              // pageCountToMaxPerf: number of write points
    randomTweak: bool, initialErase: nat,
    gcThreshold: real, reclaimBlocks: nat, badBlockThreshold: nat,
    queues: Q.QueueConfig
  )

  datatype Ftl = Ftl(
    table: map<nat, seq<Loc>>,
    blocks: map<nat, BlockView>,
    free: seq<BlockView>, nFree: nat,
    last: seq<nat>, ioMap: seq<bool>, lastIndex: nat,
    reclaimMore: bool,
    retired: set<nat>,         // erased too often; dropped by eraseInternal
    queues: Q.Queues
  )

  /** DIVCEIL(totalPhysicalBlocks * pagesInBlock, 8), the size of the layer bitmap */
  function LayerSlots(blocks: nat, pages: nat): nat
    requires 0 < blocks * pages
  {
    (blocks * pages - 1) / 8 + 1
  }

  ghost predicate ConfigOk(c: Config) {
    && 0 < c.totalBlocks && 512 <= c.pagesInBlock && 0 < c.ioUnits && 0 < c.maxPerf
    && Q.ConfigOk(c.queues)
    && 0 < c.totalBlocks * c.pagesInBlock
    && c.queues.layerSlots == LayerSlots(c.totalBlocks, c.pagesInBlock)
    && Q.LAYERS_PER_BLOCK * c.totalBlocks <= c.queues.layerSlots
  }

  /** bitsetSize: the units that have their own mapping entry */
  function Units(c: Config): nat {
    if c.randomTweak then c.ioUnits else 1
  }

  function Sentinel(c: Config): Loc {
    Loc(c.totalBlocks, c.pagesInBlock)
  }

  predicate InRange(c: Config, loc: Loc) {
    loc.block < c.totalBlocks && loc.page < c.pagesInBlock
  }

  predicate FlagOk(c: Config, flag: seq<bool>) {
    if c.randomTweak then |flag| == c.ioUnits else 0 < |flag|
  }

  /** req.ioFlag.test(idx) || !bRandomTweak */
  predicate Selected(c: Config, flag: seq<bool>, u: nat)
    requires FlagOk(c, flag) && u < Units(c)
  {
    flag[u] || !c.randomTweak
  }

  ghost predicate Shape(c: Config, s: Ftl) {
    && (forall l :: l in s.table ==> |s.table[l]| == Units(c))
    && (forall b :: b in s.blocks ==> b < c.totalBlocks && s.blocks[b].idx == b)
    && (forall b :: b in s.blocks ==> BlockOk(s.blocks[b], c.pagesInBlock, c.ioUnits))
    && (forall v :: v in s.free ==> v.idx < c.totalBlocks && BlockOk(v, c.pagesInBlock, c.ioUnits))
    && s.nFree == |s.free|
    && |s.last| == c.maxPerf && s.lastIndex < c.maxPerf
    && (c.randomTweak ==> |s.ioMap| == c.ioUnits)
    && Q.Shape(c.queues, s.queues)
  }

  // ---------------------------------------------------------------------------------------
  // Free blocks and write points

  /** The first free block whose index is congruent to idx, or |free| when there is none. */
  function FindResidue(free: seq<BlockView>, idx: nat, maxPerf: nat, i: nat): (k: nat)
    requires 0 < maxPerf && i <= |free|
    ensures i <= k <= |free|
    ensures forall j :: i <= j < k ==> free[j].idx % maxPerf != idx
    ensures k < |free| ==> free[k].idx % maxPerf == idx
    decreases |free| - i
  {
    if i == |free| || free[i].idx % maxPerf == idx then i
    else FindResidue(free, idx, maxPerf, i + 1)
  }

  function TakenIndex(c: Config, free: seq<BlockView>, idx: nat): (k: nat)
    requires 0 < c.maxPerf && free != []
    ensures k < |free|
  {
    var k := FindResidue(free, idx, c.maxPerf, 0);
    if k == |free| then 0 else k
  }

  /** Element k of the free list is put in use. */
  function TakeFree(s: Ftl, k: nat): Ftl
    requires k < |s.free| == s.nFree
  {
    s.(blocks := s.blocks[s.free[k].idx := s.free[k].(refreshed := 0)],
       free := s.free[..k] + s.free[k + 1..], nFree := s.nFree - 1)
  }

  lemma FreeCount(c: Config, s: Ftl)
    requires ConfigOk(c) && Shape(c, s)
    ensures s.nFree == |s.free| && 0 < c.maxPerf
  {
  }

  lemma TakeFreeShape(c: Config, s: Ftl, k: nat)
    requires ConfigOk(c) && Shape(c, s) && k < |s.free| == s.nFree
    ensures Shape(c, TakeFree(s, k)) && TakeFree(s, k).blocks.Keys == s.blocks.Keys + {s.free[k].idx}
  {
    var v := s.free[k];
    assert v in s.free;
    assert BlockOk(v.(refreshed := 0), c.pagesInBlock, c.ioUnits);
    assert forall x :: x in s.free[..k] + s.free[k + 1..] ==> x in s.free;
    hide BlockOk, Q.Shape;
  }

  /** getFreeBlock */
  function GetFreeBlock(c: Config, s: Ftl, idx: nat): (r: Result<(Ftl, nat)>)
    requires ConfigOk(c) && Shape(c, s)
    ensures r.Ok? ==> Shape(c, r.value.0) && r.value.1 in r.value.0.blocks
    ensures r.Ok? ==> r.value.0.blocks.Keys == s.blocks.Keys + {r.value.1} && r.value.0.table == s.table
    ensures r.Ok? ==> r.value.0.last == s.last && r.value.0.lastIndex == s.lastIndex && r.value.0.ioMap == s.ioMap
    ensures r.Ok? ==> r.value.0.queues == s.queues
  {
    hide Shape, BlockOk, ConfigOk;
    FreeCount(c, s);
    if idx >= c.maxPerf then Panic(OutOfRange)
    else if s.nFree == 0 then Panic(NoFreeBlock)
    else
      var k := TakenIndex(c, s.free, idx);
      TakeFreeShape(c, s, k);
      var b := s.free[k].idx;
      if b in s.blocks then Panic(AlreadyInUse)
      else Ok((TakeFree(s, k), b))
  }

  predicate Overlap(a: seq<bool>, b: seq<bool>)
    requires |a| == |b|
  {
    exists u :: 0 <= u < |a| && a[u] && b[u]
  }

  function Union(a: seq<bool>, b: seq<bool>): (r: seq<bool>)
    requires |a| == |b|
  {
    seq(|a|, u requires 0 <= u < |a| => a[u] || b[u])
  }

  /** getLastFreeBlock up to the look-up: move to the next write point, or stay when the
      requested units are still untouched in the current round. */
  function Rotate(c: Config, s: Ftl, flag: seq<bool>): (r: Ftl)
    requires ConfigOk(c) && Shape(c, s) && FlagOk(c, flag)
    ensures Shape(c, r)
  {
    if !c.randomTweak || Overlap(s.ioMap, flag) then
      s.(lastIndex := if s.lastIndex + 1 == c.maxPerf then 0 else s.lastIndex + 1, ioMap := flag)
    else
      s.(ioMap := Union(s.ioMap, flag))
  }

  /** getLastFreeBlock after the move: the write point, replaced if it is full. */
  function UsePoint(c: Config, s: Ftl): (r: Result<(Ftl, nat)>)
    requires ConfigOk(c) && Shape(c, s)
    ensures r.Ok? ==> Shape(c, r.value.0) && r.value.1 in r.value.0.blocks
    ensures r.Ok? ==> s.blocks.Keys <= r.value.0.blocks.Keys && r.value.0.table == s.table
  {
    var b := s.last[s.lastIndex];
    if b !in s.blocks then Panic(WritePointLost)
    else if NextPage(s.blocks[b]) == c.pagesInBlock then
      var (t, taken) :- GetFreeBlock(c, s, s.lastIndex);
      Ok((t.(last := t.last[s.lastIndex := taken], reclaimMore := true), taken))
    else Ok((s, b))
  }

  /** getLastFreeBlock */
  function GetLastFreeBlock(c: Config, s: Ftl, flag: seq<bool>): (r: Result<(Ftl, nat)>)
    requires ConfigOk(c) && Shape(c, s) && FlagOk(c, flag)
    ensures r.Ok? ==> Shape(c, r.value.0) && r.value.1 in r.value.0.blocks
    ensures r.Ok? ==> s.blocks.Keys <= r.value.0.blocks.Keys && r.value.0.table == s.table
  {
    UsePoint(c, Rotate(c, s, flag))
  }

  // ---------------------------------------------------------------------------------------
  // One I/O unit

  /** The write points and the free list are untouched. */
  predicate SamePoints(s: Ftl, t: Ftl) {
    && t.last == s.last && t.lastIndex == s.lastIndex && t.ioMap == s.ioMap && t.reclaimMore == s.reclaimMore
    && t.free == s.free && t.nFree == s.nFree && t.retired == s.retired && t.blocks.Keys == s.blocks.Keys
  }

  /** Invalidate one slot. */
  function KillUnit(c: Config, s: Ftl, b: nat, page: nat, u: nat): (r: Ftl)
    requires ConfigOk(c) && Shape(c, s) && b in s.blocks && page < c.pagesInBlock && u < c.ioUnits
    ensures Shape(c, r) && SamePoints(s, r) && r.queues == s.queues && r.table == s.table
  {
    s.(blocks := s.blocks[b := Invalidate(s.blocks[b], page, u, c.pagesInBlock, c.ioUnits)])
  }

  lemma UnitInRange(c: Config, s: Ftl, lpn: nat, b: nat, u: nat)
    requires ConfigOk(c) && Shape(c, s) && b in s.blocks && lpn in s.table && u < Units(c)
    ensures u < c.ioUnits && |s.blocks[b].next| == c.ioUnits && |s.table[lpn]| == Units(c)
    ensures BlockOk(s.blocks[b], c.pagesInBlock, c.ioUnits) && s.blocks[b].idx == b
    ensures Q.LAYERS_PER_BLOCK * (b + 1) <= c.queues.layerSlots && Q.Shape(c.queues, s.queues)
  {
    assert BlockOk(s.blocks[b], c.pagesInBlock, c.ioUnits);
  }

  lemma PlacedShape(c: Config, s: Ftl, b: nat, v: BlockView, lpn: nat, row: seq<Loc>, q: Q.Queues)
    requires ConfigOk(c) && Shape(c, s) && b in s.blocks && lpn in s.table && |row| == Units(c)
    requires v.idx == b && BlockOk(v, c.pagesInBlock, c.ioUnits) && Q.Shape(c.queues, q)
    ensures Shape(c, s.(blocks := s.blocks[b := v], table := s.table[lpn := row], queues := q))
  {
    hide BlockOk, Q.Shape;
  }

  /** Program the next slot of unit u in block b with d, map (lpn, u) to it and schedule the
      refresh of its layer. */
  function PlaceUnit(c: Config, s: Ftl, lpn: nat, u: nat, b: nat, d: nat): (r: Result<Ftl>)
    requires ConfigOk(c) && Shape(c, s) && b in s.blocks && lpn in s.table && u < Units(c)
    ensures r.Ok? ==> Shape(c, r.value) && SamePoints(s, r.value)
    ensures r.Ok? ==> r.value.table.Keys == s.table.Keys
  {
    hide Shape, Q.SetPeriod, Q.Shape, BlockOk, Write;
    UnitInRange(c, s, lpn, b, u);
    var v := s.blocks[b];
    var page := v.next[u];
    var v' :- Write(v, page, lpn, u, d, c.pagesInBlock, c.ioUnits);
    WriteShape(v, page, lpn, u, d, c.pagesInBlock, c.ioUnits);
    var row := s.table[lpn][u := Loc(b, page)];
    var q := Q.SetPeriod(c.queues, s.queues, v.eraseCount, b, page % Q.LAYERS_PER_BLOCK);
    PlacedShape(c, s, b, v', lpn, row, q);
    Ok(s.(blocks := s.blocks[b := v'], table := s.table[lpn := row], queues := q))
  }

  // ---------------------------------------------------------------------------------------
  // writeInternal

  /** Invalidate the mapped units of lpn that are written. */
  function ClearOld(c: Config, s: Ftl, lpn: nat, flag: seq<bool>, u: nat): (r: Result<Ftl>)
    requires ConfigOk(c) && Shape(c, s) && lpn in s.table && FlagOk(c, flag)
    ensures r.Ok? ==> Shape(c, r.value) && SamePoints(s, r.value) && r.value.table == s.table
    ensures r.Ok? ==> r.value.queues == s.queues
    decreases Units(c) - u
  {
    if u >= Units(c) then Ok(s)
    else
      var loc := s.table[lpn][u];
      if Selected(c, flag, u) && InRange(c, loc) then
        if loc.block !in s.blocks then Panic(NoSuchBlock)
        else ClearOld(c, KillUnit(c, s, loc.block, loc.page, u), lpn, flag, u + 1)
      else ClearOld(c, s, lpn, flag, u + 1)
  }

  function WriteUnits(c: Config, s: Ftl, lpn: nat, flag: seq<bool>, data: seq<nat>, b: nat, u: nat): (r: Result<Ftl>)
    requires ConfigOk(c) && Shape(c, s) && lpn in s.table && b in s.blocks && FlagOk(c, flag) && |data| == Units(c)
    ensures r.Ok? ==> Shape(c, r.value) && SamePoints(s, r.value)
    ensures r.Ok? ==> r.value.table.Keys == s.table.Keys
    decreases Units(c) - u
  {
    if u >= Units(c) then Ok(s)
    else if Selected(c, flag, u) then
      var s1 :- PlaceUnit(c, s, lpn, u, b, data[u]);
      WriteUnits(c, s1, lpn, flag, data, b, u + 1)
    else WriteUnits(c, s, lpn, flag, data, b, u + 1)
  }

  /** A table entry without mapped units */
  function NewEntry(c: Config, s: Ftl, lpn: nat): Ftl {
    s.(table := s.table[lpn := seq(Units(c), _ => Sentinel(c))])
  }

  /** writeInternal: find the old mapping, or create an empty one */
  function PrepareWrite(c: Config, s: Ftl, lpn: nat, flag: seq<bool>): (r: Result<Ftl>)
    requires ConfigOk(c) && Shape(c, s) && FlagOk(c, flag)
    ensures r.Ok? ==> Shape(c, r.value) && SamePoints(s, r.value) && lpn in r.value.table
    ensures r.Ok? ==> r.value.queues == s.queues
    ensures r.Ok? ==> r.value.table.Keys == s.table.Keys + {lpn}
  {
    if lpn in s.table then ClearOld(c, s, lpn, flag, 0)
    else Ok(NewEntry(c, s, lpn))
  }

  /** writeInternal up to the GC decision */
  function WriteCore(c: Config, s: Ftl, lpn: nat, flag: seq<bool>, data: seq<nat>): (r: Result<Ftl>)
    requires ConfigOk(c) && Shape(c, s) && FlagOk(c, flag) && |data| == Units(c)
    ensures r.Ok? ==> Shape(c, r.value)
    ensures r.Ok? ==> r.value.table.Keys == s.table.Keys + {lpn}
  {
    hide Shape;
    var s1 :- PrepareWrite(c, s, lpn, flag);
    var (s2, b) :- GetLastFreeBlock(c, s1, flag);
    WriteUnits(c, s2, lpn, flag, data, b, 0)
  }

  // ---------------------------------------------------------------------------------------
  // Garbage collection

  function AllSet(n: nat): seq<bool> {
    seq(n, _ => true)
  }

  /** Move unit u of (b, page), which holds lpn with contents d, to block to. */
  function CopyUnit(c: Config, s: Ftl, b: nat, page: nat, to: nat, lpn: nat, d: nat, u: nat, refresh: bool): (r: Result<Ftl>)
    requires ConfigOk(c) && Shape(c, s) && b in s.blocks && to in s.blocks && page < c.pagesInBlock && u < Units(c)
    ensures r.Ok? ==> Shape(c, r.value) && SamePoints(s, r.value)
    ensures r.Ok? ==> r.value.table.Keys == s.table.Keys
  {
    var s1 := Refreshed(c, KillUnit(c, s, b, page, u), b, refresh);
    if lpn !in s1.table then Panic(InvalidMapping)
    else PlaceUnit(c, s1, lpn, u, to, d)
  }

  /** setRefreshedPageCount(getRefreshedPageCount() + 1), in refreshPage only */
  function Refreshed(c: Config, s: Ftl, b: nat, refresh: bool): (r: Ftl)
    requires ConfigOk(c) && Shape(c, s) && b in s.blocks
    ensures Shape(c, r) && SamePoints(s, r) && r.queues == s.queues && r.table == s.table
  {
    if refresh then s.(blocks := s.blocks[b := s.blocks[b].(refreshed := s.blocks[b].refreshed + 1)])
    else s
  }

  function CopyUnits(c: Config, s: Ftl, b: nat, page: nat, to: nat, lpns: seq<nat>, data: seq<nat>, bits: seq<bool>,
                     refresh: bool, u: nat): (r: Result<Ftl>)
    requires ConfigOk(c) && Shape(c, s) && b in s.blocks && to in s.blocks && page < c.pagesInBlock
    requires |lpns| == |data| == |bits| == c.ioUnits
    ensures r.Ok? ==> Shape(c, r.value) && SamePoints(s, r.value)
    ensures r.Ok? ==> r.value.table.Keys == s.table.Keys
    decreases Units(c) - u
  {
    if u >= Units(c) then Ok(s)
    else if bits[u] then
      var s1 :- CopyUnit(c, s, b, page, to, lpns[u], data[u], u, refresh);
      CopyUnits(c, s1, b, page, to, lpns, data, bits, refresh, u + 1)
    else CopyUnits(c, s, b, page, to, lpns, data, bits, refresh, u + 1)
  }

  /** The units that are moved when a page is copied. */
  function CopyMask(c: Config, row: seq<bool>): seq<bool> {
    if c.randomTweak then row else AllSet(c.ioUnits)
  }

  /** Copy one page if it holds a valid unit. */
  function CopyPage(c: Config, s: Ftl, b: nat, page: nat, refresh: bool): (r: Result<Ftl>)
    requires ConfigOk(c) && Shape(c, s) && b in s.blocks && page < c.pagesInBlock
    ensures r.Ok? ==> Shape(c, r.value) && s.blocks.Keys <= r.value.blocks.Keys
    ensures r.Ok? ==> r.value.table.Keys == s.table.Keys
  {
    var v := s.blocks[b];
    if !Any(v.valid[page]) then Ok(s)
    else
      var bits := CopyMask(c, v.valid[page]);
      var (s1, to) :- GetLastFreeBlock(c, s, bits);
      CopyUnits(c, s1, b, page, to, v.lpns[page], v.data[page], bits, refresh, 0)
  }

  function CopyPages(c: Config, s: Ftl, b: nat, page: nat, step: nat, refresh: bool): (r: Result<Ftl>)
    requires ConfigOk(c) && Shape(c, s) && b in s.blocks && 0 < step
    ensures r.Ok? ==> Shape(c, r.value) && s.blocks.Keys <= r.value.blocks.Keys
    ensures r.Ok? ==> r.value.table.Keys == s.table.Keys
    decreases c.pagesInBlock - page
  {
    if page >= c.pagesInBlock then Ok(s)
    else
      var s1 :- CopyPage(c, s, b, page, refresh);
      CopyPages(c, s1, b, page + step, step, refresh)
  }

  function CopyVictims(c: Config, s: Ftl, victims: seq<nat>, i: nat): (r: Result<Ftl>)
    requires ConfigOk(c) && Shape(c, s)
    ensures r.Ok? ==> Shape(c, r.value)
    ensures r.Ok? ==> r.value.table.Keys == s.table.Keys
    decreases |victims| - i
  {
    if i >= |victims| then Ok(s)
    else if victims[i] !in s.blocks then Panic(NoSuchBlock)
    else
      var s1 :- CopyPages(c, s, victims[i], 0, 1, false);
      CopyVictims(c, s1, victims, i + 1)
  }

  /** The reverse search of eraseInternal: just after the last free block that is not worn more. */
  function InsertAt(free: seq<BlockView>, n: nat, eraseCount: nat): (k: nat)
    requires n <= |free|
    ensures k <= n
    ensures forall j :: k <= j < n ==> eraseCount < free[j].eraseCount
    ensures 0 < k ==> free[k - 1].eraseCount <= eraseCount
  {
    if n == 0 || free[n - 1].eraseCount <= eraseCount then n else InsertAt(free, n - 1, eraseCount)
  }

  /** The erased block, back in the free list. */
  function Release(c: Config, s: Ftl, b: nat, v: BlockView): (r: Ftl)
    requires ConfigOk(c) && Shape(c, s) && v.idx < c.totalBlocks && BlockOk(v, c.pagesInBlock, c.ioUnits)
    ensures Shape(c, r) && r.blocks == s.blocks - {b}
  {
    var k := InsertAt(s.free, |s.free|, v.eraseCount);
    s.(free := s.free[..k] + [v] + s.free[k..], nFree := s.nFree + 1, blocks := s.blocks - {b})
  }

  /** eraseInternal */
  function EraseBlock(c: Config, s: Ftl, b: nat): (r: Result<Ftl>)
    requires ConfigOk(c) && Shape(c, s)
    ensures r.Ok? ==> Shape(c, r.value) && b in s.blocks && r.value.blocks == s.blocks - {b}
    ensures r.Ok? ==> r.value.last == s.last && r.value.queues == s.queues
    ensures r.Ok? ==> r.value.table.Keys == s.table.Keys
  {
    if b !in s.blocks then Panic(NoSuchBlock)
    else if CountPages(s.blocks[b].valid) != 0 then Panic(ValidPagesInVictim)
    else
      var v := Erase(s.blocks[b], c.pagesInBlock, c.ioUnits);
      if v.eraseCount < c.badBlockThreshold then
        if s.free == [] then Panic(EmptyFreeList) else Ok(Release(c, s, b, v))
      else Ok(s.(blocks := s.blocks - {b}, retired := s.retired + {b}))
  }

  function EraseVictims(c: Config, s: Ftl, victims: seq<nat>, i: nat): (r: Result<Ftl>)
    requires ConfigOk(c) && Shape(c, s)
    ensures r.Ok? ==> Shape(c, r.value) && r.value.last == s.last && r.value.queues == s.queues
    ensures r.Ok? ==> r.value.table.Keys == s.table.Keys
    decreases |victims| - i
  {
    if i >= |victims| then Ok(s)
    else
      var s1 :- EraseBlock(c, s, victims[i]);
      EraseVictims(c, s1, victims, i + 1)
  }

  /** doGarbageCollection */
  function Collect(c: Config, s: Ftl, victims: seq<nat>): (r: Result<Ftl>)
    requires ConfigOk(c) && Shape(c, s)
    ensures r.Ok? ==> Shape(c, r.value)
    ensures r.Ok? ==> r.value.table.Keys == s.table.Keys
  {
    var s1 :- CopyVictims(c, s, victims, 0);
    EraseVictims(c, s1, victims, 0)
  }

  /** freeBlockRatio() < gcThreshold */
  predicate GcNeeded(c: Config, s: Ftl)
    requires 0 < c.totalBlocks
  {
    (s.nFree as real) / (c.totalBlocks as real) < c.gcThreshold
  }

  /** The state after selectVictimBlock has read and cleared bReclaimMore. */
  function Chosen(s: Ftl): Ftl {
    s.(reclaimMore := false)
  }

  /** The guarded collections of writeInternal and refreshPage. */
  function CollectIfNeeded(c: Config, s: Ftl, victims: seq<nat>): (r: Result<Ftl>)
    requires ConfigOk(c) && Shape(c, s)
    ensures r.Ok? ==> Shape(c, r.value)
    ensures r.Ok? ==> r.value.table.Keys == s.table.Keys
  {
    if GcNeeded(c, s) then Collect(c, Chosen(s), victims) else Ok(s)
  }

  /** writeInternal; victims is what selectVictimBlock returns if it is called */
  function WriteInternal(c: Config, s: Ftl, lpn: nat, flag: seq<bool>, data: seq<nat>, sendToPal: bool,
                         victims: seq<nat>): (r: Result<Ftl>)
    requires ConfigOk(c) && Shape(c, s) && FlagOk(c, flag) && |data| == Units(c)
    ensures r.Ok? ==> Shape(c, r.value)
    ensures r.Ok? ==> r.value.table.Keys == s.table.Keys + {lpn}
  {
    var s1 :- WriteCore(c, s, lpn, flag, data);
    if GcNeeded(c, s1) && !sendToPal then Panic(GcWhileInitializing)
    else CollectIfNeeded(c, s1, victims)
  }

  // ---------------------------------------------------------------------------------------
  // Trim, read, refresh

  function TrimUnits(c: Config, s: Ftl, lpn: nat, u: nat): (r: Result<Ftl>)
    requires ConfigOk(c) && Shape(c, s) && lpn in s.table
    ensures r.Ok? ==> Shape(c, r.value) && SamePoints(s, r.value) && r.value.table == s.table
    ensures r.Ok? ==> r.value.queues == s.queues
    decreases Units(c) - u
  {
    if u >= Units(c) then Ok(s)
    else
      var loc := s.table[lpn][u];
      if loc.block !in s.blocks then Panic(UnmappedUnit)
      else if loc.page >= c.pagesInBlock then Panic(OutOfRange)
      else TrimUnits(c, KillUnit(c, s, loc.block, loc.page, u), lpn, u + 1)
  }

  /** trimInternal */
  function Trim(c: Config, s: Ftl, lpn: nat): (r: Result<Ftl>)
    requires ConfigOk(c) && Shape(c, s)
    ensures r.Ok? ==> Shape(c, r.value)
  {
    if lpn !in s.table then Ok(s)
    else
      var s1 :- TrimUnits(c, s, lpn, 0);
      Ok(s1.(table := s1.table - {lpn}))
  }

  /** What readInternal fetches for one unit: nothing when the unit is not mapped. */
  function ReadUnit(c: Config, s: Ftl, lpn: nat, u: nat): Result<Option<nat>>
    requires ConfigOk(c) && Shape(c, s) && u < Units(c)
  {
    if lpn !in s.table || !InRange(c, s.table[lpn][u]) then Ok(None)
    else
      var loc := s.table[lpn][u];
      if loc.block !in s.blocks then Panic(NoSuchBlock)
      else Ok(Some(s.blocks[loc.block].data[loc.page][u]))
  }

  /** One iteration of the drain loop of refreshPage: take a layer and copy its pages if its
      block is still in use. */
  function RefreshLayer(c: Config, s: Ftl, num: nat): (r: Result<Ftl>)
    requires ConfigOk(c) && Shape(c, s) && num < c.queues.queueCount && s.queues.checked[num] != []
    ensures r.Ok? ==> Shape(c, r.value)
    ensures r.Ok? ==> r.value.table.Keys == s.table.Keys
  {
    var p :- Q.Pop(c.queues, s.queues, num);
    var s1 := s.(queues := p.q);
    var b := p.layer / Q.LAYERS_PER_BLOCK;
    if p.refreshNow && b in s.blocks then
      CopyPages(c, s1, b, p.layer % Q.LAYERS_PER_BLOCK, Q.LAYERS_PER_BLOCK, true)
    else Ok(s1)
  }

  /** The drain loop of refreshPage, at most n layers */
  function Drain(c: Config, s: Ftl, num: nat, n: nat): (r: Result<Ftl>)
    requires ConfigOk(c) && Shape(c, s) && num < c.queues.queueCount
    ensures r.Ok? ==> Shape(c, r.value)
    ensures r.Ok? ==> r.value.table.Keys == s.table.Keys
    decreases n
  {
    if n == 0 || s.queues.checked[num] == [] then Ok(s)
    else
      var s1 :- RefreshLayer(c, s, num);
      Drain(c, s1, num, n - 1)
  }

  function SwapQueues(c: Config, s: Ftl, num: nat): (r: Ftl)
    requires ConfigOk(c) && Shape(c, s) && num < c.queues.queueCount
    ensures Shape(c, r) && r.table == s.table
  {
    s.(queues := Q.Swap(c.queues, s.queues, num))
  }

  function CountCall(c: Config, s: Ftl): (r: Ftl)
    requires ConfigOk(c) && Shape(c, s)
    ensures Shape(c, r) && r.table == s.table
  {
    s.(queues := s.queues.(calls := s.queues.calls + 1))
  }

  /** refreshPage: collect if needed, refresh layers of the queue, collect again if needed */
  function RefreshPage(c: Config, s: Ftl, num: nat, before: seq<nat>, after: seq<nat>): (r: Result<Ftl>)
    requires ConfigOk(c) && Shape(c, s) && num < c.queues.queueCount
    ensures r.Ok? ==> Shape(c, r.value)
    ensures r.Ok? ==> r.value.table.Keys == s.table.Keys
  {
    hide Shape;
    var s1 :- CollectIfNeeded(c, s, before);
    var s2 :- Drain(c, s1, num, c.queues.maxLayers);
    CollectIfNeeded(c, s2, after)
  }

  /** refresh_event; the victims are those of the collections of refreshPage */
  function Refresh(c: Config, s: Ftl, before: seq<nat>, after: seq<nat>): (r: Result<Ftl>)
    requires ConfigOk(c) && Shape(c, s)
    ensures r.Ok? ==> Shape(c, r.value)
    ensures r.Ok? ==> r.value.table.Keys == s.table.Keys
  {
    hide Shape;
    var num := Q.Target(c.queues, s.queues);
    var t :- RefreshPage(c, SwapQueues(c, s, num), num, before, after);
    Ok(CountCall(c, t))
  }

  // ---------------------------------------------------------------------------------------
  // Construction

  function Blank(c: Config): (s: Ftl)
    requires ConfigOk(c)
    ensures Shape(c, s)
  {
    Ftl(map[], map[],
        seq(c.totalBlocks, i requires 0 <= i => New(i, c.pagesInBlock, c.ioUnits, c.initialErase)), c.totalBlocks,
        seq(c.maxPerf, _ => 0), seq(c.ioUnits, _ => false), 0, false, {}, Q.Init(c.queues))
  }

  /** lastFreeBlock.at(i) = getFreeBlock(i) */
  function TakePoint(c: Config, s: Ftl, i: nat): (r: Result<Ftl>)
    requires ConfigOk(c) && Shape(c, s) && i < c.maxPerf
    ensures r.Ok? ==> Shape(c, r.value) && r.value.queues == s.queues && r.value.table == s.table
  {
    var (t, b) :- GetFreeBlock(c, s, i);
    Ok(t.(last := t.last[i := b]))
  }

  function TakeWritePoints(c: Config, s: Ftl, i: nat): (r: Result<Ftl>)
    requires ConfigOk(c) && Shape(c, s)
    ensures r.Ok? ==> Shape(c, r.value) && r.value.queues == s.queues && r.value.table == s.table
    decreases c.maxPerf - i
  {
    if i >= c.maxPerf then Ok(s)
    else
      var t :- TakePoint(c, s, i);
      TakeWritePoints(c, t, i + 1)
  }

  /** The constructor: every block is free, then each write point takes one. */
  function Construct(c: Config): (r: Result<Ftl>)
    requires ConfigOk(c)
    ensures r.Ok? ==> Shape(c, r.value)
  {
    TakeWritePoints(c, Blank(c), 0)
  }
}

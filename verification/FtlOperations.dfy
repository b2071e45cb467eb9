/** Every operation of the translation layer keeps the invariant and changes what look-ups
    find exactly as a plain map would change.  No assumption is made on the victims beyond what
    every selection policy guarantees: they are distinct, in use and fully programmed. */
module FtlOperations {
  import opened Outcome
  import opened FlashBlock
  import opened FtlModel
  import opened FtlInvariant
  import Q = RefreshQueues

  ghost predicate Full(c: Config, s: Ftl, b: nat) {
    b in s.blocks && NextPage(s.blocks[b]) == c.pagesInBlock
  }

  ghost predicate Kept(s: Ftl, t: Ftl) {
    forall b :: b in s.blocks ==> b in t.blocks && t.blocks[b] == s.blocks[b]
  }

  lemma SameLookupTrans(s: Ftl, t: Ftl, r: Ftl)
    requires SameLookup(s, t) && SameLookup(t, r)
    ensures SameLookup(s, r)
  {
    hide Lookup;
  }

  // ---------------------------------------------------------------------------------------
  // The write point

  /** Nothing in the invariant depends on the write points, the queues or the flags. */
  lemma FrameCore(c: Config, s: Ftl, t: Ftl, hole: set<Unit>)
    requires Core(c, s, hole) && Shape(c, t)
    requires t.blocks == s.blocks && t.table == s.table && t.free == s.free && t.retired == s.retired
    ensures Core(c, t, hole) && SameLookup(s, t)
  {
    hide Shape, ConfigOk;
    FreeFrame(c, s, t);
    hide FreeOk;
    assert SameLive(s, t);
    SameLiveMapping(c, s, t, hole);
  }

  lemma RotateCore(c: Config, s: Ftl, flag: seq<bool>, hole: set<Unit>)
    requires Core(c, s, hole) && FlagOk(c, flag)
    ensures Core(c, Rotate(c, s, flag), hole) && SameLookup(s, Rotate(c, s, flag))
    ensures Rotate(c, s, flag).blocks == s.blocks && Rotate(c, s, flag).free == s.free
    ensures Rotate(c, s, flag).table == s.table
  {
    FrameCore(c, s, Rotate(c, s, flag), hole);
  }

  /** t is s with block to ready to be programmed in every unit. */
  ghost predicate Readied(c: Config, s: Ftl, t: Ftl, to: nat, hole: set<Unit>) {
    && Core(c, t, hole) && SameLookup(s, t) && Kept(s, t) && t.table == s.table
    && to in t.blocks && NextPage(t.blocks[to]) < c.pagesInBlock
  }

  lemma PointInRange(c: Config, s: Ftl)
    requires ConfigOk(c) && Shape(c, s)
    ensures |s.last| == c.maxPerf && s.lastIndex < c.maxPerf && 0 < c.pagesInBlock
  {
  }

  lemma PointShape(c: Config, s: Ftl, b: nat)
    requires ConfigOk(c) && Shape(c, s) && s.lastIndex < |s.last|
    ensures Shape(c, s.(last := s.last[s.lastIndex := b], reclaimMore := true))
  {
  }

  /** getLastFreeBlock when the write point is full and a block is free. */
  lemma ReplaceCore(c: Config, s: Ftl, hole: set<Unit>)
    requires Core(c, s, hole) && s.free != []
    ensures var (s1, to) := GetFreeBlock(c, s, s.lastIndex).value;
      Readied(c, s, s1.(last := s1.last[s.lastIndex := to], reclaimMore := true), to, hole)
  {
    hide Shape, FreeOk, GetFreeBlock, Lookup, TableSound, SlotsMapped, ConfigOk, Clean, NextPage, SameLookup;
    PointInRange(c, s);
    GetFreeCore(c, s, s.lastIndex, hole);
    var (s1, to) := GetFreeBlock(c, s, s.lastIndex).value;
    CleanHasRoom(s1.blocks[to]);
    PointInRange(c, s1);
    PointShape(c, s1, to);
    var t := s1.(last := s1.last[s.lastIndex := to], reclaimMore := true);
    FrameCore(c, s1, t, hole);
    SameLookupTrans(s, s1, t);
  }

  ghost function WritePoint(c: Config, s: Ftl, flag: seq<bool>): nat
    requires ConfigOk(c) && Shape(c, s) && FlagOk(c, flag)
  {
    Rotate(c, s, flag).last[Rotate(c, s, flag).lastIndex]
  }

  ghost predicate SomePointLost(s: Ftl) {
    exists i :: 0 <= i < |s.last| && s.last[i] !in s.blocks
  }

  /** getLastFreeBlock panics exactly when the write point it moves to has been lost, or is full
      while no block is free. */
  lemma GetLastPanics(c: Config, s: Ftl, flag: seq<bool>, hole: set<Unit>)
    requires Core(c, s, hole) && FlagOk(c, flag)
    ensures var r := GetLastFreeBlock(c, s, flag);
      && (r == Panic(WritePointLost) <==> WritePoint(c, s, flag) !in s.blocks)
      && (r == Panic(NoFreeBlock) <==> Full(c, s, WritePoint(c, s, flag)) && s.free == [])
      && (r.Panic? ==> r.why in {WritePointLost, NoFreeBlock})
      && (r == Panic(WritePointLost) ==> SomePointLost(s))
  {
    var s1 := Rotate(c, s, flag);
    RotateCore(c, s, flag, hole);
    assert s1.last == s.last;
    if Full(c, s1, s1.last[s1.lastIndex]) {
      GetFreeCore(c, s1, s1.lastIndex, hole);
    }
  }

  /** getLastFreeBlock yields a block that is in use and has room in every unit. */
  lemma GetLastCore(c: Config, s: Ftl, flag: seq<bool>, hole: set<Unit>)
    requires Core(c, s, hole) && FlagOk(c, flag) && GetLastFreeBlock(c, s, flag).Ok?
    ensures var (t, to) := GetLastFreeBlock(c, s, flag).value;
      Readied(c, s, t, to, hole)
  {
    hide Shape, ConfigOk, Rotate, GetFreeBlock, NextPage, FreeOk, TableSound, SlotsMapped, SameLookup, FlagOk;
    var s1 := Rotate(c, s, flag);
    RotateCore(c, s, flag, hole);
    PointInRange(c, s1);
    var b := s1.last[s1.lastIndex];
    if NextPage(s1.blocks[b]) == c.pagesInBlock {
      GetFreeCore(c, s1, s1.lastIndex, hole);
      ReplaceCore(c, s1, hole);
      SameLookupTrans(s, s1, GetLastFreeBlock(c, s, flag).value.0);
    } else {
      BlockNotOverfull(c, s1, b);
    }
  }

  lemma BlockNotOverfull(c: Config, s: Ftl, b: nat)
    requires ConfigOk(c) && Shape(c, s) && b in s.blocks
    ensures NextPage(s.blocks[b]) <= c.pagesInBlock
  {
    assert BlockOk(s.blocks[b], c.pagesInBlock, c.ioUnits);
    assert forall x :: x in s.blocks[b].next ==> x <= c.pagesInBlock;
  }

  lemma CleanHasRoom(v: BlockView)
    requires Clean(v)
    ensures NextPage(v) == 0
  {
  }

  // ---------------------------------------------------------------------------------------
  // Copying

  /** From s to t, unit u moved from (b, page) to the next slot of to; nothing else changed. */
  ghost predicate Moved(s: Ftl, t: Ftl, b: nat, page: nat, to: nat, u: nat) {
    && Advanced(s, t, to, u)
    && !Live(t, b, page, u)
    && (to, s.blocks[to].next[u]) != (b, page)
    && (forall x: nat, p: nat, w: nat :: (x, p, w) != (b, page, u) && (x, p, w) != (to, s.blocks[to].next[u], u) ==>
      && Live(t, x, p, w) == Live(s, x, p, w)
      && Tag(t, x, p, w) == Tag(s, x, p, w)
      && Contents(t, x, p, w) == Contents(s, x, p, w))
  }

  lemma RefreshedSlots(c: Config, s: Ftl, b: nat, refresh: bool)
    requires ConfigOk(c) && Shape(c, s) && b in s.blocks
    ensures var t := Refreshed(c, s, b, refresh);
      && SameSlots(s, t) && SameNext(s, t)
      && t.table == s.table && t.free == s.free && t.retired == s.retired
  {
    hide Shape, ConfigOk;
  }

  lemma RefreshedCore(c: Config, s: Ftl, b: nat, refresh: bool, hole: set<Unit>)
    requires Core(c, s, hole) && b in s.blocks
    ensures Core(c, Refreshed(c, s, b, refresh), hole) && SameLookup(s, Refreshed(c, s, b, refresh))
  {
    RefreshedSlots(c, s, b, refresh);
    FreeFrame(c, s, Refreshed(c, s, b, refresh));
    hide FreeOk, Shape, ConfigOk, Refreshed, Live, Tag, Contents, TableSound, SlotsMapped, Lookup;
    SameLiveMapping(c, s, Refreshed(c, s, b, refresh), hole);
  }

  lemma WrittenBefore(c: Config, s: Ftl, b: nat, page: nat, u: nat)
    requires ConfigOk(c) && Shape(c, s) && Live(s, b, page, u)
    ensures page < c.pagesInBlock && u < c.ioUnits && page < s.blocks[b].next[u]
  {
    assert BlockOk(s.blocks[b], c.pagesInBlock, c.ioUnits);
  }

  lemma MovedBySteps(s: Ftl, s1: Ftl, s2: Ftl, t: Ftl, b: nat, page: nat, to: nat, u: nat, lpn: nat, d: nat)
    requires b in s.blocks && u < |s.blocks[b].next| && page < s.blocks[b].next[u]
    requires SameSlotsBut(s, s1, b, page, u) && !Live(s1, b, page, u) && SameNext(s, s1)
    requires SameSlots(s1, s2) && SameNext(s1, s2)
    requires lpn in s2.table && u < |s2.table[lpn]| && to in s2.blocks && u < |s2.blocks[to].next|
    requires Placed(s2, t, lpn, u, to, s2.blocks[to].next[u], d)
    ensures Moved(s, t, b, page, to, u)
  {
    hide Live, Tag, Contents;
  }

  lemma CopyUnitMoved(c: Config, s: Ftl, b: nat, page: nat, to: nat, lpn: nat, d: nat, u: nat, refresh: bool)
    requires ConfigOk(c) && Shape(c, s) && Live(s, b, page, u) && page < c.pagesInBlock && u < Units(c)
    requires lpn in s.table && to in s.blocks && s.blocks[to].next[u] < c.pagesInBlock
    ensures var r := CopyUnit(c, s, b, page, to, lpn, d, u, refresh);
      r.Ok? && Moved(s, r.value, b, page, to, u)
  {
    var s1 := KillUnit(c, s, b, page, u);
    var s2 := Refreshed(c, s1, b, refresh);
    WrittenBefore(c, s, b, page, u);
    KillSlots(c, s, b, page, u);
    RefreshedSlots(c, s1, b, refresh);
    hide Live, Tag, Contents, KillUnit, Refreshed, PlaceUnit, Shape, SameSlots, SameSlotsBut, Moved;
    PlaceSlots(c, s2, lpn, u, to, d);
    MovedBySteps(s, s1, s2, PlaceUnit(c, s2, lpn, u, to, d).value, b, page, to, u, lpn, d);
  }

  /** A valid slot is mapped, and its tag looks up its contents. */
  lemma LiveMapped(c: Config, s: Ftl, b: nat, page: nat, u: nat)
    requires Inv(c, s) && Live(s, b, page, u)
    ensures b in s.blocks && page < c.pagesInBlock && u < Units(c) && u < c.ioUnits
    ensures page < s.blocks[b].next[u]
    ensures Tag(s, b, page, u) in s.table && s.table[Tag(s, b, page, u)][u] == Loc(b, page)
    ensures Lookup(s, Tag(s, b, page, u), u) == Some(Contents(s, b, page, u))
  {
    WrittenBefore(c, s, b, page, u);
    assert Tag(s, b, page, u) in s.table;
  }

  lemma LookupRestored(s: Ftl, s1: Ftl, s2: Ftl, t: Ftl, lpn: nat, u: nat, d: nat)
    requires Lookup(s, lpn, u) == Some(d)
    requires Updated(s, s1, lpn, u, None) && SameLookup(s1, s2) && Updated(s2, t, lpn, u, Some(d))
    ensures SameLookup(s, t)
  {
    hide Lookup;
  }

  lemma HoleFilled(x: Unit)
    ensures {} + {x} == {x} && {x} - {x} == {}
  {
  }

  /** The invariant holds after, and every look-up finds what it found before. */
  ghost predicate Preserved(c: Config, s: Ftl, t: Ftl) {
    Inv(c, t) && SameLookup(s, t)
  }

  /** Copying a unit keeps the invariant and every look-up. */
  lemma CopyUnitCore(c: Config, s: Ftl, b: nat, page: nat, to: nat, u: nat, refresh: bool)
    requires Inv(c, s) && Live(s, b, page, u) && page < c.pagesInBlock && u < Units(c)
    requires to in s.blocks && s.blocks[to].next[u] < c.pagesInBlock
    ensures var r := CopyUnit(c, s, b, page, to, Tag(s, b, page, u), Contents(s, b, page, u), u, refresh);
      r.Ok? && Preserved(c, s, r.value)
  {
    hide Shape, FreeOk, TableSound, SlotsMapped, Lookup, KillUnit, Refreshed, Live, Tag, Contents, SameSlots,
         SameSlotsBut, PlaceUnit, Placed, Updated, SameLookup, ConfigOk;
    LiveMapped(c, s, b, page, u);
    var lpn, d := Tag(s, b, page, u), Contents(s, b, page, u);
    var s1 := KillUnit(c, s, b, page, u);
    var s2 := Refreshed(c, s1, b, refresh);
    HoleFilled((lpn, u));
    KillSlots(c, s, b, page, u);
    KillCore(c, s, b, page, u, {});
    RefreshedSlots(c, s1, b, refresh);
    RefreshedCore(c, s1, b, refresh, {(lpn, u)});
    PlaceCore(c, s2, lpn, u, to, d, {(lpn, u)});
    LookupRestored(s, s1, s2, PlaceUnit(c, s2, lpn, u, to, d).value, lpn, u, d);
  }

  lemma PreservedSelf(c: Config, s: Ftl)
    requires Inv(c, s)
    ensures Preserved(c, s, s)
  {
    hide Inv;
  }

  lemma PreservedTrans(c: Config, s: Ftl, t: Ftl, r: Ftl)
    requires Preserved(c, s, t) && Preserved(c, t, r)
    ensures Preserved(c, s, r)
  {
    hide Inv;
    SameLookupTrans(s, t, r);
  }

  /** The units of (b, page) from u on that are set in bits can be copied to block to. */
  ghost predicate Movable(c: Config, s: Ftl, b: nat, page: nat, to: nat, lpns: seq<nat>, data: seq<nat>,
                          bits: seq<bool>, u: nat)
    requires |lpns| == |data| == |bits|
  {
    && b in s.blocks && to in s.blocks && Units(c) <= |bits| && Units(c) <= |s.blocks[to].next|
    && forall w: nat {:trigger bits[w]} {:trigger Live(s, b, page, w)} :: u <= w < Units(c) && bits[w] ==>
      && Live(s, b, page, w) && Tag(s, b, page, w) == lpns[w] && Contents(s, b, page, w) == data[w]
      && s.blocks[to].next[w] < c.pagesInBlock
  }

  /** Apart from block to, s and t differ only in the units of (b, page) from u on, which t has
      invalidated where bits is set. */
  ghost predicate RowMoved(c: Config, s: Ftl, t: Ftl, b: nat, page: nat, to: nat, bits: seq<bool>, u: nat) {
    && Units(c) <= |bits| && s.blocks.Keys <= t.blocks.Keys
    && (forall x :: x in s.blocks && x != to ==> t.blocks[x].next == s.blocks[x].next)
    && (forall x: nat, p: nat, w: nat :: x in s.blocks && x != to ==>
      (Live(t, x, p, w) <==> Live(s, x, p, w) && !(x == b && p == page && u <= w < Units(c) && bits[w])))
  }

  lemma MovableNext(c: Config, s: Ftl, t: Ftl, b: nat, page: nat, to: nat, lpns: seq<nat>, data: seq<nat>,
                    bits: seq<bool>, u: nat)
    requires |lpns| == |data| == |bits| && u < Units(c)
    requires Movable(c, s, b, page, to, lpns, data, bits, u)
    requires bits[u] ==> Moved(s, t, b, page, to, u)
    requires !bits[u] ==> t == s
    ensures Movable(c, t, b, page, to, lpns, data, bits, u + 1)
  {
    hide Live, Tag, Contents;
  }

  lemma RowMovedNext(c: Config, s: Ftl, t: Ftl, r: Ftl, b: nat, page: nat, to: nat, bits: seq<bool>, u: nat)
    requires u < Units(c) <= |bits| && bits[u] && Moved(s, t, b, page, to, u)
    requires RowMoved(c, t, r, b, page, to, bits, u + 1)
    ensures RowMoved(c, s, r, b, page, to, bits, u)
  {
    hide Live, Tag, Contents;
  }

  lemma CopyOneUnit(c: Config, s: Ftl, b: nat, page: nat, to: nat, lpns: seq<nat>, data: seq<nat>,
                    bits: seq<bool>, refresh: bool, u: nat)
    requires Inv(c, s) && page < c.pagesInBlock && |lpns| == |data| == |bits| == c.ioUnits && u < Units(c)
    requires Movable(c, s, b, page, to, lpns, data, bits, u) && u < |bits| && bits[u]
    ensures b in s.blocks && to in s.blocks
    ensures var r := CopyUnit(c, s, b, page, to, lpns[u], data[u], u, refresh);
      && r.Ok? && Preserved(c, s, r.value) && Moved(s, r.value, b, page, to, u)
      && Movable(c, r.value, b, page, to, lpns, data, bits, u + 1)
  {
    hide Shape, FreeOk, TableSound, SlotsMapped, Lookup, Live, Tag, Contents, ConfigOk, CopyUnit, Moved, SameLookup;
    LiveMapped(c, s, b, page, u);
    CopyUnitMoved(c, s, b, page, to, lpns[u], data[u], u, refresh);
    CopyUnitCore(c, s, b, page, to, u, refresh);
    hide Movable;
    MovableNext(c, s, CopyUnit(c, s, b, page, to, lpns[u], data[u], u, refresh).value, b, page, to, lpns, data, bits, u);
  }

  lemma MovableBlocks(c: Config, s: Ftl, b: nat, page: nat, to: nat, lpns: seq<nat>, data: seq<nat>,
                      bits: seq<bool>, u: nat)
    requires |lpns| == |data| == |bits| && Movable(c, s, b, page, to, lpns, data, bits, u)
    ensures b in s.blocks && to in s.blocks && Units(c) <= |bits|
    ensures u < Units(c) && !bits[u] ==> Movable(c, s, b, page, to, lpns, data, bits, u + 1)
  {
    hide Live, Tag, Contents;
  }

  lemma RowUnmoved(c: Config, s: Ftl, r: Ftl, b: nat, page: nat, to: nat, bits: seq<bool>, u: nat)
    requires u <= Units(c) <= |bits| && (u < Units(c) ==> !bits[u] && RowMoved(c, s, r, b, page, to, bits, u + 1))
    requires u == Units(c) ==> r == s
    ensures RowMoved(c, s, r, b, page, to, bits, u)
  {
    hide Live;
  }

  lemma {:induction false} CopyUnitsCore(c: Config, s: Ftl, b: nat, page: nat, to: nat, lpns: seq<nat>,
                                         data: seq<nat>, bits: seq<bool>, refresh: bool, u: nat)
    requires Inv(c, s) && page < c.pagesInBlock && |lpns| == |data| == |bits| == c.ioUnits && u <= Units(c)
    requires Movable(c, s, b, page, to, lpns, data, bits, u)
    ensures b in s.blocks && to in s.blocks
    ensures var r := CopyUnits(c, s, b, page, to, lpns, data, bits, refresh, u);
      r.Ok? && Preserved(c, s, r.value) && RowMoved(c, s, r.value, b, page, to, bits, u)
    decreases Units(c) - u
  {
    hide Shape, FreeOk, TableSound, SlotsMapped, Lookup, Live, ConfigOk, CopyUnit, Moved, Movable, RowMoved, SameLookup;
    MovableBlocks(c, s, b, page, to, lpns, data, bits, u);
    if u == Units(c) {
      PreservedSelf(c, s);
      RowUnmoved(c, s, s, b, page, to, bits, u);
    } else if bits[u] {
      CopyOneUnit(c, s, b, page, to, lpns, data, bits, refresh, u);
      var t := CopyUnit(c, s, b, page, to, lpns[u], data[u], u, refresh).value;
      CopyUnitsCore(c, t, b, page, to, lpns, data, bits, refresh, u + 1);
      var r := CopyUnits(c, t, b, page, to, lpns, data, bits, refresh, u + 1).value;
      PreservedTrans(c, s, t, r);
      RowMovedNext(c, s, t, r, b, page, to, bits, u);
    } else {
      CopyUnitsCore(c, s, b, page, to, lpns, data, bits, refresh, u + 1);
      RowUnmoved(c, s, CopyUnits(c, s, b, page, to, lpns, data, bits, refresh, u + 1).value, b, page, to, bits, u);
    }
  }

  /** Every full block stays full; its valid slots stay valid, apart from the pages [lo, hi) of
      b, which become invalid. */
  ghost predicate Cleared(c: Config, s: Ftl, t: Ftl, b: nat, lo: nat, hi: nat) {
    forall x {:trigger Full(c, s, x)} :: Full(c, s, x) ==>
      && Full(c, t, x)
      && forall p: nat, w: nat :: Live(t, x, p, w) <==> Live(s, x, p, w) && !(x == b && lo <= p < hi)
  }

  lemma ClearedJoin(c: Config, s: Ftl, t: Ftl, r: Ftl, b: nat, lo: nat, mid: nat, hi: nat)
    requires Cleared(c, s, t, b, lo, mid) && Cleared(c, t, r, b, mid, hi) && lo <= mid <= hi
    ensures Cleared(c, s, r, b, lo, hi)
  {
    hide Live, Full;
  }

  lemma PageMovable(c: Config, s: Ftl, t: Ftl, b: nat, page: nat, to: nat)
    requires Inv(c, s) && b in s.blocks && page < c.pagesInBlock && Any(s.blocks[b].valid[page])
    requires Readied(c, s, t, to, {})
    ensures |s.blocks[b].lpns[page]| == |s.blocks[b].data[page]| == |CopyMask(c, s.blocks[b].valid[page])| == c.ioUnits
    ensures Movable(c, t, b, page, to, s.blocks[b].lpns[page], s.blocks[b].data[page],
                    CopyMask(c, s.blocks[b].valid[page]), 0)
  {
    assert BlockOk(s.blocks[b], c.pagesInBlock, c.ioUnits) && BlockOk(t.blocks[to], c.pagesInBlock, c.ioUnits);
    var u :| 0 <= u < |s.blocks[b].valid[page]| && s.blocks[b].valid[page][u];
    assert Live(s, b, page, u);
  }

  lemma RowMovedAt(c: Config, s: Ftl, t: Ftl, r: Ftl, b: nat, page: nat, to: nat, x: nat, p: nat, w: nat)
    requires ConfigOk(c) && Shape(c, s) && b in s.blocks && page < c.pagesInBlock && SlotsMapped(s, {}) && TableSound(c, s, {})
    requires x != to && x in s.blocks && x in t.blocks && t.blocks[x] == s.blocks[x]
    requires RowMoved(c, t, r, b, page, to, CopyMask(c, s.blocks[b].valid[page]), 0)
    ensures Live(r, x, p, w) <==> Live(s, x, p, w) && !(x == b && p == page)
  {
    assert BlockOk(s.blocks[b], c.pagesInBlock, c.ioUnits);
    assert Live(t, x, p, w) == Live(s, x, p, w);
    assert Live(s, x, p, w) ==> w < Units(c);
  }

  lemma RowMovedCleared(c: Config, s: Ftl, t: Ftl, r: Ftl, b: nat, page: nat, to: nat)
    requires Inv(c, s) && Inv(c, t) && b in s.blocks && page < c.pagesInBlock
    requires Kept(s, t) && to in t.blocks && NextPage(t.blocks[to]) < c.pagesInBlock
    requires RowMoved(c, t, r, b, page, to, CopyMask(c, s.blocks[b].valid[page]), 0)
    ensures Cleared(c, s, r, b, page, page + 1)
  {
    hide Live, TableSound, SlotsMapped, FreeOk, ConfigOk, Shape, CopyMask;
    forall x | Full(c, s, x)
      ensures Full(c, r, x)
      ensures forall p: nat, w: nat :: Live(r, x, p, w) <==> Live(s, x, p, w) && !(x == b && p == page)
    {
      assert x != to && t.blocks[x] == s.blocks[x];
      forall p: nat, w: nat ensures Live(r, x, p, w) <==> Live(s, x, p, w) && !(x == b && p == page) {
        RowMovedAt(c, s, t, r, b, page, to, x, p, w);
      }
    }
  }

  /** The units that a copy of the page requests. */
  lemma PageBits(c: Config, s: Ftl, b: nat, page: nat)
    requires ConfigOk(c) && Shape(c, s) && b in s.blocks && page < c.pagesInBlock
    ensures page < |s.blocks[b].valid| == |s.blocks[b].lpns| == |s.blocks[b].data|
    ensures |s.blocks[b].lpns[page]| == |s.blocks[b].data[page]| == c.ioUnits
    ensures var bits := CopyMask(c, s.blocks[b].valid[page]);
      FlagOk(c, bits) && |bits| == c.ioUnits
  {
    assert BlockOk(s.blocks[b], c.pagesInBlock, c.ioUnits);
  }

  lemma NothingCopied(c: Config, s: Ftl, b: nat, page: nat)
    requires Inv(c, s) && b in s.blocks && page < |s.blocks[b].valid| && !Any(s.blocks[b].valid[page])
    ensures Preserved(c, s, s) && Cleared(c, s, s, b, page, page + 1)
  {
    hide Inv, Full;
    assert forall w: nat :: !Live(s, b, page, w);
  }

  /** Copying a page, in garbage collection or refresh, keeps the invariant and every look-up; it
      can only panic for want of a write point.  No copy lands in a block that is full. */
  lemma CopyPageCore(c: Config, s: Ftl, b: nat, page: nat, refresh: bool)
    requires Inv(c, s) && b in s.blocks && page < c.pagesInBlock
    ensures var r := CopyPage(c, s, b, page, refresh);
      && (r.Panic? ==> r.why in {WritePointLost, NoFreeBlock})
      && (r == Panic(WritePointLost) ==> SomePointLost(s))
      && (r.Ok? ==> Preserved(c, s, r.value) && Cleared(c, s, r.value, b, page, page + 1))
  {
    hide Shape, FreeOk, TableSound, SlotsMapped, Lookup, Live, ConfigOk, CopyMask, GetLastFreeBlock, Movable, RowMoved,
         Cleared, Full, Any, FlagOk, SameLookup, Kept, BlockOk, NextPage;
    PageBits(c, s, b, page);
    var v := s.blocks[b];
    if !Any(v.valid[page]) {
      NothingCopied(c, s, b, page);
    } else {
      var bits := CopyMask(c, v.valid[page]);
      GetLastPanics(c, s, bits, {});
      if GetLastFreeBlock(c, s, bits).Ok? {
        GetLastCore(c, s, bits, {});
        var (t, to) := GetLastFreeBlock(c, s, bits).value;
        PageMovable(c, s, t, b, page, to);
        CopyUnitsCore(c, t, b, page, to, v.lpns[page], v.data[page], bits, refresh, 0);
        var r := CopyUnits(c, t, b, page, to, v.lpns[page], v.data[page], bits, refresh, 0).value;
        PreservedTrans(c, s, t, r);
        RowMovedCleared(c, s, t, r, b, page, to);
      }
    }
  }

  lemma {:induction false} CopyPagesCore(c: Config, s: Ftl, b: nat, page: nat, step: nat, refresh: bool)
    requires Inv(c, s) && b in s.blocks && 0 < step && page <= c.pagesInBlock
    ensures var r := CopyPages(c, s, b, page, step, refresh);
      && (r.Panic? ==> r.why in {WritePointLost, NoFreeBlock})
      && (r.Ok? ==> Preserved(c, s, r.value))
      && (r.Ok? && step == 1 ==> Cleared(c, s, r.value, b, page, c.pagesInBlock))
    decreases c.pagesInBlock - page
  {
    hide Shape, FreeOk, TableSound, SlotsMapped, Lookup, Live, ConfigOk, Cleared;
    if page == c.pagesInBlock {
      NothingCleared(c, s, b);
    } else {
      CopyPageCore(c, s, b, page, refresh);
      if CopyPage(c, s, b, page, refresh).Ok? {
        var t := CopyPage(c, s, b, page, refresh).value;
        if page + step <= c.pagesInBlock {
          CopyPagesCore(c, t, b, page + step, step, refresh);
          if CopyPages(c, t, b, page + step, step, refresh).Ok? {
            var r := CopyPages(c, t, b, page + step, step, refresh).value;
            PreservedTrans(c, s, t, r);
            if step == 1 {
              ClearedJoin(c, s, t, r, b, page, page + 1, c.pagesInBlock);
            }
          }
        }
      }
    }
  }

  lemma NothingCleared(c: Config, s: Ftl, b: nat)
    ensures Cleared(c, s, s, b, c.pagesInBlock, c.pagesInBlock)
  {
  }

  /** No slot of b is valid. */
  ghost predicate Dead(s: Ftl, b: nat) {
    b in s.blocks && forall p: nat, w: nat :: !Live(s, b, p, w)
  }

  /** What every victim selection guarantees: victims are distinct, in use and full. */
  ghost predicate VictimsOk(c: Config, s: Ftl, victims: seq<nat>) {
    && (forall i :: 0 <= i < |victims| ==> Full(c, s, victims[i]))
    && (forall i, j :: 0 <= i < j < |victims| ==> victims[i] != victims[j])
  }

  lemma ClearedDead(c: Config, s: Ftl, t: Ftl, b: nat)
    requires Inv(c, s) && Full(c, s, b) && Cleared(c, s, t, b, 0, c.pagesInBlock)
    ensures Dead(t, b)
  {
    assert BlockOk(s.blocks[b], c.pagesInBlock, c.ioUnits);
  }

  /** After the copying phase no victim holds a valid slot, and all of them are still full. */
  lemma {:induction false} CopyVictimsCore(c: Config, s: Ftl, victims: seq<nat>, i: nat)
    requires Inv(c, s) && VictimsOk(c, s, victims) && i <= |victims|
    requires forall j :: 0 <= j < i ==> Dead(s, victims[j])
    ensures var r := CopyVictims(c, s, victims, i);
      && (r.Panic? ==> r.why in {WritePointLost, NoFreeBlock})
      && (r.Ok? ==> Preserved(c, s, r.value) && VictimsOk(c, r.value, victims))
      && (r.Ok? ==> forall j :: 0 <= j < |victims| ==> Dead(r.value, victims[j]))
    decreases |victims| - i
  {
    hide Shape, FreeOk, TableSound, SlotsMapped, Lookup, Live, ConfigOk, NextPage;
    if i < |victims| {
      var b := victims[i];
      CopyPagesCore(c, s, b, 0, 1, false);
      if CopyPages(c, s, b, 0, 1, false).Ok? {
        var t := CopyPages(c, s, b, 0, 1, false).value;
        ClearedDead(c, s, t, b);
        assert forall j :: 0 <= j < |victims| ==> Full(c, s, victims[j]) && Full(c, t, victims[j]);
        assert forall j :: 0 <= j < i ==> Dead(t, victims[j]);
        hide Cleared, Full, Dead;
        CopyVictimsCore(c, t, victims, i + 1);
        if CopyVictims(c, t, victims, i + 1).Ok? {
          PreservedTrans(c, s, t, CopyVictims(c, t, victims, i + 1).value);
        }
      }
    }
  }

  // ---------------------------------------------------------------------------------------
  // Erasing

  lemma DropLive(s: Ftl, t: Ftl, b: nat)
    requires Dead(s, b) && t.blocks == s.blocks - {b}
    ensures SameLive(s, t)
  {
  }

  lemma RetireFreeOk(c: Config, s: Ftl, t: Ftl, b: nat)
    requires FreeOk(c, s) && b in s.blocks && t.blocks == s.blocks - {b}
    requires t.free == s.free && t.retired == s.retired + {b}
    ensures FreeOk(c, t)
  {
    hide Clean, Ordered, Indices;
  }

  lemma EraseFreeOk(c: Config, s: Ftl, b: nat)
    requires ConfigOk(c) && Shape(c, s) && FreeOk(c, s) && EraseBlock(c, s, b).Ok?
    ensures FreeOk(c, EraseBlock(c, s, b).value)
  {
    var t := EraseBlock(c, s, b).value;
    var v := Erase(s.blocks[b], c.pagesInBlock, c.ioUnits);
    assert Clean(v) && v.idx == b;
    hide FreeOk, Shape, Erase;
    if v.eraseCount < c.badBlockThreshold {
      ReturnFreeOk(c, s, t, b, v, InsertAt(s.free, |s.free|, v.eraseCount));
    } else {
      RetireFreeOk(c, s, t, b);
    }
  }

  /** eraseInternal on a block without valid slots: it fails exactly when the block goes back to
      an empty free list. */
  lemma EraseCore(c: Config, s: Ftl, b: nat)
    requires Inv(c, s) && Dead(s, b)
    ensures var r := EraseBlock(c, s, b);
      && (r.Panic? <==> s.free == [] && s.blocks[b].eraseCount + 1 < c.badBlockThreshold)
      && (r.Panic? ==> r.why == EmptyFreeList)
      && (r.Ok? ==> Preserved(c, s, r.value) && r.value.blocks == s.blocks - {b})
  {
    assert CountPages(s.blocks[b].valid) == 0 by {
      forall p, u | 0 <= p < |s.blocks[b].valid| && 0 <= u < |s.blocks[b].valid[p]| ensures !s.blocks[b].valid[p][u] {
        assert !Live(s, b, p, u);
      }
    }
    if EraseBlock(c, s, b).Ok? {
      var t := EraseBlock(c, s, b).value;
      assert t.table == s.table;
      EraseFreeOk(c, s, b);
      hide Shape, FreeOk, EraseBlock, Live, TableSound, SlotsMapped, Lookup;
      DropLive(s, t, b);
      SameLiveMapping(c, s, t, {});
    }
  }

  lemma {:induction false} EraseVictimsCore(c: Config, s: Ftl, victims: seq<nat>, i: nat)
    requires Inv(c, s) && i <= |victims|
    requires forall j :: i <= j < |victims| ==> Dead(s, victims[j])
    requires forall j, k :: 0 <= j < k < |victims| ==> victims[j] != victims[k]
    ensures var r := EraseVictims(c, s, victims, i);
      && (r.Panic? ==> r.why == EmptyFreeList)
      && (r.Ok? ==> Preserved(c, s, r.value) && r.value.blocks == s.blocks - set j | i <= j < |victims| :: victims[j])
    decreases |victims| - i
  {
    hide Shape, FreeOk, TableSound, SlotsMapped, Lookup, ConfigOk, EraseBlock;
    if i < |victims| {
      EraseCore(c, s, victims[i]);
      if EraseBlock(c, s, victims[i]).Ok? {
        var t := EraseBlock(c, s, victims[i]).value;
        DropLive(s, t, victims[i]);
        forall j | i + 1 <= j < |victims| ensures Dead(t, victims[j]) {
          assert Dead(s, victims[j]) && victims[i] != victims[j];
        }
        hide Dead;
        EraseVictimsCore(c, t, victims, i + 1);
        if EraseVictims(c, t, victims, i + 1).Ok? {
          PreservedTrans(c, s, t, EraseVictims(c, t, victims, i + 1).value);
        }
      }
    }
  }

  /** doGarbageCollection keeps the invariant and every look-up and erases every victim.  Of all
      its panics only three can happen: a lost write point, no free block to copy to, and an empty
      free list to return a victim to. */
  lemma CollectCore(c: Config, s: Ftl, victims: seq<nat>)
    requires Inv(c, s) && VictimsOk(c, s, victims)
    ensures var r := Collect(c, s, victims);
      && (r.Panic? ==> r.why in {WritePointLost, NoFreeBlock, EmptyFreeList})
      && (r.Ok? ==> Preserved(c, s, r.value) && forall v :: v in victims ==> v !in r.value.blocks)
  {
    hide Shape, FreeOk, TableSound, SlotsMapped, Lookup, ConfigOk, Dead, Full;
    CopyVictimsCore(c, s, victims, 0);
    if CopyVictims(c, s, victims, 0).Ok? {
      var t := CopyVictims(c, s, victims, 0).value;
      EraseVictimsCore(c, t, victims, 0);
      if EraseVictims(c, t, victims, 0).Ok? {
        PreservedTrans(c, s, t, EraseVictims(c, t, victims, 0).value);
      }
    }
  }

  lemma CollectIfNeededCore(c: Config, s: Ftl, victims: seq<nat>)
    requires Inv(c, s) && (GcNeeded(c, s) ==> VictimsOk(c, s, victims))
    ensures var r := CollectIfNeeded(c, s, victims);
      && (r.Panic? ==> r.why in {WritePointLost, NoFreeBlock, EmptyFreeList})
      && (r.Ok? ==> Preserved(c, s, r.value))
  {
    if GcNeeded(c, s) {
      FrameCore(c, s, Chosen(s), {});
      assert VictimsOk(c, Chosen(s), victims);
      hide Shape, FreeOk, TableSound, SlotsMapped, Lookup, ConfigOk, VictimsOk, Collect, Chosen;
      CollectCore(c, Chosen(s), victims);
      if Collect(c, Chosen(s), victims).Ok? {
        PreservedTrans(c, s, Chosen(s), Collect(c, Chosen(s), victims).value);
      }
    }
  }

  // ---------------------------------------------------------------------------------------
  // Host writes

  /** The selected units of lpn in [lo, hi). */
  ghost function Selection(c: Config, lpn: nat, flag: seq<bool>, lo: nat, hi: nat): set<Unit>
    requires FlagOk(c, flag) && hi <= Units(c)
  {
    set w: nat | lo <= w < hi && Selected(c, flag, w) :: (lpn, w)
  }

  /** Look-ups of t are those of s outside hole. */
  ghost predicate SameOutside(s: Ftl, t: Ftl, hole: set<Unit>) {
    forall m: nat, w: nat :: (m, w) !in hole ==> Lookup(t, m, w) == Lookup(s, m, w)
  }

  lemma WidenHole(c: Config, s: Ftl, lpn: nat, u: nat, hole: set<Unit>)
    requires Core(c, s, hole) && lpn in s.table && u < Units(c) && s.table[lpn][u] == Sentinel(c)
    ensures Core(c, s, hole + {(lpn, u)})
  {
    assert c.totalBlocks !in s.blocks;
    hide Shape, FreeOk, ConfigOk, Holds;
    forall b: nat, p: nat, w: nat | Live(s, b, p, w) ensures (Tag(s, b, p, w), w) != (lpn, u) {
    }
  }

  lemma MappedInRange(c: Config, s: Ftl, lpn: nat, u: nat, hole: set<Unit>)
    requires Core(c, s, hole) && lpn in s.table && u < Units(c) && (lpn, u) !in hole
    ensures var loc := s.table[lpn][u];
      if InRange(c, loc) then
        Live(s, loc.block, loc.page, u) && Tag(s, loc.block, loc.page, u) == lpn && loc.block in s.blocks
      else loc == Sentinel(c)
  {
    var loc := s.table[lpn][u];
    if loc != Sentinel(c) {
      WrittenBefore(c, s, loc.block, loc.page, u);
    }
  }

  lemma SelectionStep(c: Config, lpn: nat, flag: seq<bool>, lo: nat, u: nat)
    requires FlagOk(c, flag) && lo <= u < Units(c)
    ensures (lpn, u) !in Selection(c, lpn, flag, lo, u)
    ensures Selection(c, lpn, flag, lo, u + 1)
      == Selection(c, lpn, flag, lo, u) + if Selected(c, flag, u) then {(lpn, u)} else {}
    ensures Selection(c, lpn, flag, u, Units(c)) - {(lpn, u)} == Selection(c, lpn, flag, u + 1, Units(c))
    ensures !Selected(c, flag, u) ==> Selection(c, lpn, flag, u, Units(c)) == Selection(c, lpn, flag, u + 1, Units(c))
    ensures Selected(c, flag, u) ==> (lpn, u) in Selection(c, lpn, flag, u, Units(c))
    ensures Selected(c, flag, u) ==> (lpn, u) in Selection(c, lpn, flag, lo, Units(c))
  {
    hide Selected, Units;
  }

  lemma ClearOneCore(c: Config, s: Ftl, lpn: nat, flag: seq<bool>, u: nat)
    requires FlagOk(c, flag) && u < Units(c) && Core(c, s, Selection(c, lpn, flag, 0, u)) && lpn in s.table
    requires Selected(c, flag, u)
    ensures var loc := s.table[lpn][u];
      if InRange(c, loc) then
        && loc.block in s.blocks
        && var t := KillUnit(c, s, loc.block, loc.page, u);
        Core(c, t, Selection(c, lpn, flag, 0, u + 1)) && Updated(s, t, lpn, u, None) && t.table == s.table
      else Core(c, s, Selection(c, lpn, flag, 0, u + 1))
  {
    var hole := Selection(c, lpn, flag, 0, u);
    SelectionStep(c, lpn, flag, 0, u);
    MappedInRange(c, s, lpn, u, hole);
    var loc := s.table[lpn][u];
    assert u < c.ioUnits;
    hide Shape, FreeOk, TableSound, SlotsMapped, Lookup, Live, Tag, KillUnit, ConfigOk, Selection;
    if InRange(c, loc) {
      KillCore(c, s, loc.block, loc.page, u, hole);
      KillSlots(c, s, loc.block, loc.page, u);
    } else {
      WidenHole(c, s, lpn, u, hole);
    }
  }

  lemma OutsideJoin(c: Config, s: Ftl, t: Ftl, r: Ftl, lpn: nat, u: nat, hole: set<Unit>)
    requires Updated(s, t, lpn, u, None) && (lpn, u) in hole && SameOutside(t, r, hole)
    ensures SameOutside(s, r, hole)
  {
    hide Lookup;
  }

  lemma TableRow(c: Config, s: Ftl, lpn: nat)
    requires Shape(c, s) && lpn in s.table
    ensures |s.table[lpn]| == Units(c)
  {
  }

  lemma SameOutsideSelf(s: Ftl, hole: set<Unit>)
    ensures SameOutside(s, s, hole)
  {
  }

  /** The definition of ClearOld, unfolded once. */
  lemma ClearUnfolded(c: Config, s: Ftl, lpn: nat, flag: seq<bool>, u: nat)
    requires ConfigOk(c) && Shape(c, s) && FlagOk(c, flag) && u <= Units(c) && lpn in s.table
    ensures u == Units(c) ==> ClearOld(c, s, lpn, flag, u) == Ok(s)
    ensures u < Units(c) ==> u < |s.table[lpn]| && u < c.ioUnits
    ensures u < Units(c) && !(Selected(c, flag, u) && InRange(c, s.table[lpn][u])) ==>
      ClearOld(c, s, lpn, flag, u) == ClearOld(c, s, lpn, flag, u + 1)
    ensures u < Units(c) && Selected(c, flag, u) && InRange(c, s.table[lpn][u]) ==>
      var loc := s.table[lpn][u];
      ClearOld(c, s, lpn, flag, u) ==
        if loc.block !in s.blocks then Panic(NoSuchBlock)
        else ClearOld(c, KillUnit(c, s, loc.block, loc.page, u), lpn, flag, u + 1)
  {
    hide KillUnit;
  }

  /** Invalidating the old units never meets a block that is not in use. */
  lemma {:induction false} ClearOldCore(c: Config, s: Ftl, lpn: nat, flag: seq<bool>, u: nat)
    requires FlagOk(c, flag) && u <= Units(c) && Core(c, s, Selection(c, lpn, flag, 0, u)) && lpn in s.table
    ensures var r := ClearOld(c, s, lpn, flag, u);
      && r.Ok? && Core(c, r.value, Selection(c, lpn, flag, 0, Units(c)))
      && SameOutside(s, r.value, Selection(c, lpn, flag, 0, Units(c)))
    decreases Units(c) - u
  {
    hide Shape, FreeOk, TableSound, SlotsMapped, Lookup, KillUnit, ConfigOk, Updated, Selection, SameOutside, Selected, Units,
         FlagOk, ClearOld;
    ClearUnfolded(c, s, lpn, flag, u);
    if u == Units(c) {
      SameOutsideSelf(s, Selection(c, lpn, flag, 0, Units(c)));
    } else {
      SelectionStep(c, lpn, flag, 0, u);
      assert !Selected(c, flag, u) ==> Selection(c, lpn, flag, 0, u + 1) == Selection(c, lpn, flag, 0, u);
      var loc := s.table[lpn][u];
      if Selected(c, flag, u) && InRange(c, loc) {
        ClearOneCore(c, s, lpn, flag, u);
        var t := KillUnit(c, s, loc.block, loc.page, u);
        ClearOldCore(c, t, lpn, flag, u + 1);
        OutsideJoin(c, s, t, ClearOld(c, t, lpn, flag, u + 1).value, lpn, u, Selection(c, lpn, flag, 0, Units(c)));
      } else {
        if Selected(c, flag, u) {
          ClearOneCore(c, s, lpn, flag, u);
        }
        ClearOldCore(c, s, lpn, flag, u + 1);
      }
    }
  }

  /** t looks up data for the selected units of lpn from u on, and like s everywhere else. */
  ghost predicate Stored(c: Config, s: Ftl, t: Ftl, lpn: nat, flag: seq<bool>, data: seq<nat>, u: nat)
    requires FlagOk(c, flag) && |data| == Units(c)
  {
    forall m: nat, w: nat :: Lookup(t, m, w) ==
      if m == lpn && u <= w < Units(c) && Selected(c, flag, w) then Some(data[w]) else Lookup(s, m, w)
  }

  /** Block b can take the units of a write from u on. */
  ghost predicate HasRoom(c: Config, s: Ftl, b: nat, u: nat) {
    && b in s.blocks && |s.blocks[b].next| == c.ioUnits
    && forall w :: u <= w < c.ioUnits ==> s.blocks[b].next[w] < c.pagesInBlock
  }

  lemma WriteOneCore(c: Config, s: Ftl, lpn: nat, flag: seq<bool>, d: nat, b: nat, u: nat)
    requires FlagOk(c, flag) && u < Units(c) && lpn in s.table && Selected(c, flag, u)
    requires Core(c, s, Selection(c, lpn, flag, u, Units(c))) && HasRoom(c, s, b, u)
    ensures var r := PlaceUnit(c, s, lpn, u, b, d);
      && r.Ok? && Core(c, r.value, Selection(c, lpn, flag, u + 1, Units(c)))
      && Updated(s, r.value, lpn, u, Some(d)) && HasRoom(c, r.value, b, u + 1) && lpn in r.value.table
  {
    assert u < c.ioUnits;
    SelectionStep(c, lpn, flag, u, u);
    hide Shape, FreeOk, TableSound, SlotsMapped, Lookup, Live, Tag, Contents, PlaceUnit, ConfigOk, Selection, Updated;
    PlaceCore(c, s, lpn, u, b, d, Selection(c, lpn, flag, u, Units(c)));
    PlaceSlots(c, s, lpn, u, b, d);
  }

  lemma StoredJoin(c: Config, s: Ftl, t: Ftl, r: Ftl, lpn: nat, flag: seq<bool>, data: seq<nat>, u: nat)
    requires FlagOk(c, flag) && |data| == Units(c) && u < Units(c)
    requires if Selected(c, flag, u) then Updated(s, t, lpn, u, Some(data[u])) else t == s
    requires Stored(c, t, r, lpn, flag, data, u + 1)
    ensures Stored(c, s, r, lpn, flag, data, u)
  {
    hide Lookup;
  }

  lemma {:induction false} WriteUnitsCore(c: Config, s: Ftl, lpn: nat, flag: seq<bool>, data: seq<nat>, b: nat, u: nat)
    requires FlagOk(c, flag) && |data| == Units(c) && u <= Units(c) && lpn in s.table
    requires Core(c, s, Selection(c, lpn, flag, u, Units(c))) && HasRoom(c, s, b, u)
    ensures var r := WriteUnits(c, s, lpn, flag, data, b, u);
      r.Ok? && Inv(c, r.value) && Stored(c, s, r.value, lpn, flag, data, u)
    decreases Units(c) - u
  {
    hide Shape, FreeOk, TableSound, SlotsMapped, Lookup, Live, PlaceUnit, ConfigOk, Selection, Updated, Stored,
         WriteUnits, Selected, Units, FlagOk;
    if u == Units(c) {
      WriteNone(c, s, lpn, flag, data, b);
    } else {
      SelectionStep(c, lpn, flag, u, u);
      WriteUnitsUnfolded(c, s, lpn, flag, data, b, u);
      var t := s;
      if Selected(c, flag, u) {
        WriteOneCore(c, s, lpn, flag, data[u], b, u);
        t := PlaceUnit(c, s, lpn, u, b, data[u]).value;
      }
      hide Core;
      WriteUnitsCore(c, t, lpn, flag, data, b, u + 1);
      StoredJoin(c, s, t, WriteUnits(c, t, lpn, flag, data, b, u + 1).value, lpn, flag, data, u);
    }
  }

  lemma WriteNone(c: Config, s: Ftl, lpn: nat, flag: seq<bool>, data: seq<nat>, b: nat)
    requires FlagOk(c, flag) && |data| == Units(c) && lpn in s.table && HasRoom(c, s, b, Units(c))
    requires Core(c, s, Selection(c, lpn, flag, Units(c), Units(c)))
    ensures WriteUnits(c, s, lpn, flag, data, b, Units(c)) == Ok(s)
    ensures Inv(c, s) && Stored(c, s, s, lpn, flag, data, Units(c))
  {
    hide FreeOk, TableSound, SlotsMapped, Lookup;
    assert Selection(c, lpn, flag, Units(c), Units(c)) == {};
  }

  lemma NewEntryFrame(c: Config, s: Ftl, lpn: nat)
    requires ConfigOk(c) && Shape(c, s) && FreeOk(c, s)
    ensures Shape(c, NewEntry(c, s, lpn)) && FreeOk(c, NewEntry(c, s, lpn)) && c.totalBlocks !in s.blocks
  {
    FreeFrame(c, s, NewEntry(c, s, lpn));
    hide FreeOk;
  }

  lemma NewEntryMapping(c: Config, s: Ftl, lpn: nat, flag: seq<bool>)
    requires TableSound(c, s, {}) && SlotsMapped(s, {}) && c.totalBlocks !in s.blocks && FlagOk(c, flag) && lpn !in s.table
    ensures TableSound(c, NewEntry(c, s, lpn), Selection(c, lpn, flag, 0, Units(c)))
    ensures SlotsMapped(NewEntry(c, s, lpn), Selection(c, lpn, flag, 0, Units(c)))
    ensures SameLookup(s, NewEntry(c, s, lpn))
  {
    var t := NewEntry(c, s, lpn);
    assert forall u: nat :: u < Units(c) ==> !Live(s, Sentinel(c).block, Sentinel(c).page, u);
    assert SameSlots(s, t);
    hide Live, Tag, Contents;
    forall l: nat, u: nat | l in t.table && u < |t.table[l]|
      ensures Lookup(t, l, u) == Lookup(s, l, u)
    {
    }
  }

  lemma NewEntryCore(c: Config, s: Ftl, lpn: nat, flag: seq<bool>)
    requires Inv(c, s) && FlagOk(c, flag) && lpn !in s.table
    ensures var t := NewEntry(c, s, lpn);
      Core(c, t, Selection(c, lpn, flag, 0, Units(c))) && SameLookup(s, t)
  {
    hide Shape, FreeOk, ConfigOk, FlagOk, TableSound, SlotsMapped, SameLookup;
    NewEntryFrame(c, s, lpn);
    NewEntryMapping(c, s, lpn, flag);
  }

  /** Before the write point is taken the selected units of lpn are unmapped. */
  lemma PrepareCore(c: Config, s: Ftl, lpn: nat, flag: seq<bool>)
    requires Inv(c, s) && FlagOk(c, flag)
    ensures var r := PrepareWrite(c, s, lpn, flag);
      && r.Ok? && Core(c, r.value, Selection(c, lpn, flag, 0, Units(c)))
      && SameOutside(s, r.value, Selection(c, lpn, flag, 0, Units(c)))
  {
    if lpn in s.table {
      assert Selection(c, lpn, flag, 0, 0) == {};
      ClearOldCore(c, s, lpn, flag, 0);
    } else {
      NewEntryCore(c, s, lpn, flag);
    }
  }

  lemma RoomFromNextPage(c: Config, s: Ftl, b: nat)
    requires ConfigOk(c) && Shape(c, s) && b in s.blocks && NextPage(s.blocks[b]) < c.pagesInBlock
    ensures HasRoom(c, s, b, 0)
  {
    assert BlockOk(s.blocks[b], c.pagesInBlock, c.ioUnits);
  }

  lemma StoredFrom(c: Config, s: Ftl, s1: Ftl, s2: Ftl, t: Ftl, lpn: nat, flag: seq<bool>, data: seq<nat>)
    requires FlagOk(c, flag) && |data| == Units(c)
    requires SameOutside(s, s1, Selection(c, lpn, flag, 0, Units(c))) && SameLookup(s1, s2)
    requires Stored(c, s2, t, lpn, flag, data, 0)
    ensures Stored(c, s, t, lpn, flag, data, 0)
  {
    hide Lookup;
  }

  /** writeInternal up to its GC decision stores exactly the selected units; it can only panic for
      want of a write point, and never by programming a page that is not erased. */
  lemma WriteCoreCore(c: Config, s: Ftl, lpn: nat, flag: seq<bool>, data: seq<nat>)
    requires Inv(c, s) && FlagOk(c, flag) && |data| == Units(c)
    ensures var r := WriteCore(c, s, lpn, flag, data);
      && (r.Panic? ==> r.why in {WritePointLost, NoFreeBlock})
      && (r == Panic(WritePointLost) ==> SomePointLost(s))
      && (r.Ok? ==> Inv(c, r.value) && Stored(c, s, r.value, lpn, flag, data, 0))
  {
    hide Shape, FreeOk, TableSound, SlotsMapped, Lookup, Live, PrepareWrite, GetLastFreeBlock, WriteUnits, ConfigOk,
         Selection, Stored, SameOutside, SameLookup, Full, Units, FlagOk, Rotate;
    var hole := Selection(c, lpn, flag, 0, Units(c));
    PrepareCore(c, s, lpn, flag);
    var s1 := PrepareWrite(c, s, lpn, flag).value;
    GetLastPanics(c, s1, flag, hole);
    assert SamePoints(s, s1);
    if GetLastFreeBlock(c, s1, flag).Ok? {
      WriteReadied(c, s, s1, lpn, flag, data);
    }
  }

  /** The second half of a write: the old units are unmapped already. */
  lemma WriteReadied(c: Config, s: Ftl, s1: Ftl, lpn: nat, flag: seq<bool>, data: seq<nat>)
    requires FlagOk(c, flag) && |data| == Units(c) && Core(c, s1, Selection(c, lpn, flag, 0, Units(c)))
    requires SameOutside(s, s1, Selection(c, lpn, flag, 0, Units(c))) && lpn in s1.table
    requires GetLastFreeBlock(c, s1, flag).Ok?
    ensures var (s2, b) := GetLastFreeBlock(c, s1, flag).value;
      && b in s2.blocks && lpn in s2.table
      && var r := WriteUnits(c, s2, lpn, flag, data, b, 0);
      r.Ok? && Inv(c, r.value) && Stored(c, s, r.value, lpn, flag, data, 0)
  {
    hide Shape, FreeOk, TableSound, SlotsMapped, Lookup, Live, GetLastFreeBlock, WriteUnits, ConfigOk, Selection, Stored,
         SameOutside, SameLookup, Full, Units, FlagOk;
    var hole := Selection(c, lpn, flag, 0, Units(c));
    GetLastCore(c, s1, flag, hole);
    var (s2, b) := GetLastFreeBlock(c, s1, flag).value;
    RoomFromNextPage(c, s2, b);
    WriteUnitsCore(c, s2, lpn, flag, data, b, 0);
    StoredFrom(c, s, s1, s2, WriteUnits(c, s2, lpn, flag, data, b, 0).value, lpn, flag, data);
  }

  /** The definition of WriteUnits, unfolded once. */
  lemma WriteUnitsUnfolded(c: Config, s: Ftl, lpn: nat, flag: seq<bool>, data: seq<nat>, b: nat, u: nat)
    requires ConfigOk(c) && Shape(c, s) && lpn in s.table && b in s.blocks && FlagOk(c, flag) && |data| == Units(c)
    requires u < Units(c)
    ensures Units(c) <= c.ioUnits
    ensures !Selected(c, flag, u) ==>
      WriteUnits(c, s, lpn, flag, data, b, u) == WriteUnits(c, s, lpn, flag, data, b, u + 1)
    ensures Selected(c, flag, u) && PlaceUnit(c, s, lpn, u, b, data[u]).Ok? ==>
      WriteUnits(c, s, lpn, flag, data, b, u)
        == WriteUnits(c, PlaceUnit(c, s, lpn, u, b, data[u]).value, lpn, flag, data, b, u + 1)
  {
    hide PlaceUnit;
  }

  lemma StoredPreserved(c: Config, s: Ftl, t: Ftl, r: Ftl, lpn: nat, flag: seq<bool>, data: seq<nat>)
    requires FlagOk(c, flag) && |data| == Units(c)
    requires Stored(c, s, t, lpn, flag, data, 0) && Preserved(c, t, r)
    ensures Stored(c, s, r, lpn, flag, data, 0)
  {
    hide Lookup;
  }

  /** A host write with the collection it may trigger. */
  lemma WriteInternalCore(c: Config, s: Ftl, lpn: nat, flag: seq<bool>, data: seq<nat>, sendToPal: bool,
                          victims: seq<nat>)
    requires Inv(c, s) && FlagOk(c, flag) && |data| == Units(c)
    requires var r := WriteCore(c, s, lpn, flag, data);
      r.Ok? && GcNeeded(c, r.value) ==> VictimsOk(c, r.value, victims)
    ensures var r := WriteInternal(c, s, lpn, flag, data, sendToPal, victims);
      && (r.Panic? ==> r.why in {WritePointLost, NoFreeBlock, EmptyFreeList, GcWhileInitializing})
      && (r == Panic(GcWhileInitializing) <==> var w := WriteCore(c, s, lpn, flag, data);
            w.Ok? && GcNeeded(c, w.value) && !sendToPal)
      && (r.Ok? ==> Inv(c, r.value) && Stored(c, s, r.value, lpn, flag, data, 0))
  {
    hide Shape, FreeOk, TableSound, SlotsMapped, Lookup, WriteCore, CollectIfNeeded, ConfigOk, Stored, GcNeeded, VictimsOk;
    WriteCoreCore(c, s, lpn, flag, data);
    if WriteCore(c, s, lpn, flag, data).Ok? {
      var t := WriteCore(c, s, lpn, flag, data).value;
      CollectIfNeededCore(c, t, victims);
      if CollectIfNeeded(c, t, victims).Ok? {
        StoredPreserved(c, s, t, CollectIfNeeded(c, t, victims).value, lpn, flag, data);
      }
    }
  }
}

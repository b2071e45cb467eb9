/** The write points.  The source takes for granted that no victim of a collection is a write
    point.  Nothing in the code ensures it: a write point that is full is a victim like any other
    until it is replaced.  Here is exactly when a collection keeps the write points in use. */
module FtlWritePoints {
  import opened Outcome
  import opened FlashBlock
  import opened FtlModel
  import opened FtlInvariant
  import opened FtlOperations
  import opened FtlRuns
  import Q = RefreshQueues

  /** Every write point is in use, and no two are the same block. */
  ghost predicate PointsOk(s: Ftl) {
    && (forall i :: 0 <= i < |s.last| ==> s.last[i] in s.blocks)
    && (forall i, j :: 0 <= i < j < |s.last| ==> s.last[i] != s.last[j])
  }

  // ---------------------------------------------------------------------------------------
  // Which write points a sequence of page copies moves to

  datatype Rotor = Rotor(index: nat, ioMap: seq<bool>)

  function RotorOf(s: Ftl): Rotor {
    Rotor(s.lastIndex, s.ioMap)
  }

  function Turn(c: Config, r: Rotor, mask: seq<bool>): Rotor
    requires c.randomTweak ==> |mask| == |r.ioMap|
  {
    if !c.randomTweak || Overlap(r.ioMap, mask) then
      Rotor(if r.index + 1 == c.maxPerf then 0 else r.index + 1, mask)
    else
      Rotor(r.index, Union(r.ioMap, mask))
  }

  ghost predicate MasksOk(c: Config, r: Rotor, masks: seq<seq<bool>>) {
    c.randomTweak ==> |r.ioMap| == c.ioUnits && forall i :: 0 <= i < |masks| ==> |masks[i]| == c.ioUnits
  }

  /** The write points that requests with the given masks move to. */
  ghost function Visited(c: Config, r: Rotor, masks: seq<seq<bool>>): set<nat>
    requires MasksOk(c, r, masks)
    decreases |masks|
  {
    if masks == [] then {}
    else {Turn(c, r, masks[0]).index} + Visited(c, Turn(c, r, masks[0]), masks[1..])
  }

  ghost function TurnAll(c: Config, r: Rotor, masks: seq<seq<bool>>): (e: Rotor)
    requires MasksOk(c, r, masks)
    ensures MasksOk(c, e, [])
    decreases |masks|
  {
    if masks == [] then r else TurnAll(c, Turn(c, r, masks[0]), masks[1..])
  }

  lemma {:induction false} VisitedJoin(c: Config, r: Rotor, a: seq<seq<bool>>, b: seq<seq<bool>>)
    requires MasksOk(c, r, a) && MasksOk(c, r, b)
    ensures Visited(c, r, a + b) == Visited(c, r, a) + Visited(c, TurnAll(c, r, a), b)
    ensures TurnAll(c, r, a + b) == TurnAll(c, TurnAll(c, r, a), b)
    decreases |a|
  {
    if a == [] {
      assert a + b == b;
    } else {
      assert (a + b)[1..] == a[1..] + b && (a + b)[0] == a[0];
      VisitedJoin(c, Turn(c, r, a[0]), a[1..], b);
    }
  }

  /** The request that copying a page makes, if it holds a valid unit. */
  ghost function PageMask(c: Config, s: Ftl, b: nat, page: nat): (m: seq<seq<bool>>)
    requires ConfigOk(c) && Shape(c, s) && b in s.blocks && page < c.pagesInBlock
    ensures forall i :: 0 <= i < |m| ==> |m[i]| == c.ioUnits
  {
    assert BlockOk(s.blocks[b], c.pagesInBlock, c.ioUnits);
    if Any(s.blocks[b].valid[page]) then [CopyMask(c, s.blocks[b].valid[page])] else []
  }

  ghost function BlockMasks(c: Config, s: Ftl, b: nat, page: nat): (m: seq<seq<bool>>)
    requires ConfigOk(c) && Shape(c, s) && b in s.blocks
    ensures forall i :: 0 <= i < |m| ==> |m[i]| == c.ioUnits
    decreases c.pagesInBlock - page
  {
    if page >= c.pagesInBlock then [] else PageMask(c, s, b, page) + BlockMasks(c, s, b, page + 1)
  }

  ghost function VictimMasks(c: Config, s: Ftl, victims: seq<nat>, i: nat): (m: seq<seq<bool>>)
    requires ConfigOk(c) && Shape(c, s) && forall v :: v in victims ==> v in s.blocks
    ensures forall i :: 0 <= i < |m| ==> |m[i]| == c.ioUnits
    decreases |victims| - i
  {
    if i >= |victims| then [] else BlockMasks(c, s, victims[i], 0) + VictimMasks(c, s, victims, i + 1)
  }

  lemma MasksFit(c: Config, s: Ftl, masks: seq<seq<bool>>)
    requires Shape(c, s) && forall i :: 0 <= i < |masks| ==> |masks[i]| == c.ioUnits
    ensures MasksOk(c, RotorOf(s), masks)
  {
  }

  // ---------------------------------------------------------------------------------------
  // The effect of copying on the write points

  /** From s to t the write points in visits were examined, and the full ones among them
      replaced by blocks that were free. */
  ghost predicate Rolled(c: Config, s: Ftl, t: Ftl, visits: set<nat>) {
    && |t.last| == |s.last| && s.blocks.Keys <= t.blocks.Keys
    && (PointsOk(s) ==> PointsOk(t))
    && (forall i :: 0 <= i < |s.last| ==> t.last[i] == s.last[i] || t.last[i] !in s.blocks)
    && (forall i :: 0 <= i < |s.last| && Full(c, s, s.last[i]) ==> (t.last[i] == s.last[i] <==> i !in visits))
  }

  lemma RolledJoin(c: Config, s: Ftl, t: Ftl, r: Ftl, v: set<nat>, w: set<nat>)
    requires Rolled(c, s, t, v) && Rolled(c, t, r, w)
    requires forall x :: Full(c, s, x) ==> Full(c, t, x)
    ensures Rolled(c, s, r, v + w)
  {
    hide Full, PointsOk;
    forall i | 0 <= i < |s.last| && Full(c, s, s.last[i])
      ensures r.last[i] == s.last[i] <==> i !in v + w
    {
      assert s.last[i] in s.blocks by { FullInUse(c, s, s.last[i]); }
    }
  }

  lemma FullInUse(c: Config, s: Ftl, b: nat)
    requires Full(c, s, b)
    ensures b in s.blocks
  {
  }

  lemma PointReplaced(c: Config, s: Ftl, t: Ftl, i: nat, taken: nat)
    requires i < |s.last| && Full(c, s, s.last[i]) && taken !in s.blocks
    requires t.last == s.last[i := taken] && t.blocks.Keys == s.blocks.Keys + {taken}
    ensures Rolled(c, s, t, {i})
  {
    hide NextPage;
  }

  lemma PointKept(c: Config, s: Ftl, t: Ftl, i: nat)
    requires i < |s.last| && !Full(c, s, s.last[i]) && t.last == s.last && t.blocks.Keys == s.blocks.Keys
    ensures Rolled(c, s, t, {i})
  {
    hide NextPage;
  }

  lemma GetLastRolled(c: Config, s: Ftl, flag: seq<bool>, hole: set<Unit>)
    requires Core(c, s, hole) && FlagOk(c, flag) && GetLastFreeBlock(c, s, flag).Ok?
    ensures var t := GetLastFreeBlock(c, s, flag).value.0;
      && Rolled(c, s, t, {Rotate(c, s, flag).lastIndex})
      && RotorOf(t) == RotorOf(Rotate(c, s, flag))
  {
    var s1 := Rotate(c, s, flag);
    RotateCore(c, s, flag, hole);
    var i := s1.lastIndex;
    assert |s.last| == c.maxPerf && s1.last == s.last;
    hide Shape, FreeOk, TableSound, SlotsMapped, Lookup, NextPage, Rotate, GetFreeBlock, ConfigOk, Rolled;
    if NextPage(s1.blocks[s1.last[i]]) == c.pagesInBlock {
      GetFreeCore(c, s1, i, hole);
      PointReplaced(c, s, GetLastFreeBlock(c, s, flag).value.0, i, GetFreeBlock(c, s1, i).value.1);
    } else {
      PointKept(c, s, GetLastFreeBlock(c, s, flag).value.0, i);
    }
  }

  lemma SamePointsRolled(c: Config, s: Ftl, t: Ftl)
    requires SamePoints(s, t)
    ensures Rolled(c, s, t, {}) && RotorOf(t) == RotorOf(s)
  {
    hide Full;
  }

  lemma RolledThen(c: Config, s: Ftl, t: Ftl, r: Ftl, v: set<nat>)
    requires Rolled(c, s, t, v) && SamePoints(t, r)
    ensures Rolled(c, s, r, v)
  {
    hide Full;
  }

  lemma TurnOf(c: Config, s: Ftl, mask: seq<bool>)
    requires ConfigOk(c) && Shape(c, s) && |mask| == c.ioUnits
    ensures RotorOf(Rotate(c, s, mask)) == Turn(c, RotorOf(s), mask)
    ensures MasksOk(c, RotorOf(s), [mask]) && MasksOk(c, RotorOf(s), [])
    ensures Visited(c, RotorOf(s), [mask]) == {Rotate(c, s, mask).lastIndex}
    ensures TurnAll(c, RotorOf(s), [mask]) == RotorOf(Rotate(c, s, mask))
  {
    assert [mask][1..] == [];
    assert Visited(c, Turn(c, RotorOf(s), mask), []) == {};
    assert TurnAll(c, Turn(c, RotorOf(s), mask), []) == Turn(c, RotorOf(s), mask);
  }

  /** The masks of a copy are those of its page; the write points it moves to are replaced. */
  ghost predicate RolledBy(c: Config, s: Ftl, t: Ftl, masks: seq<seq<bool>>) {
    && MasksOk(c, RotorOf(s), masks)
    && Rolled(c, s, t, Visited(c, RotorOf(s), masks))
    && RotorOf(t) == TurnAll(c, RotorOf(s), masks)
  }

  lemma CopyPageRolled(c: Config, s: Ftl, b: nat, page: nat, refresh: bool)
    requires Inv(c, s) && b in s.blocks && page < c.pagesInBlock && CopyPage(c, s, b, page, refresh).Ok?
    ensures RolledBy(c, s, CopyPage(c, s, b, page, refresh).value, PageMask(c, s, b, page))
  {
    hide Shape, FreeOk, TableSound, SlotsMapped, Lookup, GetLastFreeBlock, Rotate, ConfigOk, Rolled, BlockOk, CopyUnits,
         CopyMask, Any, FlagOk;
    PageBits(c, s, b, page);
    var r := CopyPage(c, s, b, page, refresh).value;
    var v := s.blocks[b];
    MasksFit(c, s, PageMask(c, s, b, page));
    if Any(v.valid[page]) {
      var bits := CopyMask(c, v.valid[page]);
      assert PageMask(c, s, b, page) == [bits];
      TurnOf(c, s, bits);
      GetLastRolled(c, s, bits, {});
      RolledThen(c, s, GetLastFreeBlock(c, s, bits).value.0, r, {Rotate(c, s, bits).lastIndex});
    } else {
      assert Visited(c, RotorOf(s), []) == {} && TurnAll(c, RotorOf(s), []) == RotorOf(s);
      SamePointsRolled(c, s, s);
    }
  }

  lemma RolledByJoin(c: Config, s: Ftl, t: Ftl, r: Ftl, a: seq<seq<bool>>, b: seq<seq<bool>>)
    requires RolledBy(c, s, t, a) && RolledBy(c, t, r, b)
    requires forall x :: Full(c, s, x) ==> Full(c, t, x)
    requires MasksOk(c, RotorOf(s), a + b) && MasksOk(c, RotorOf(s), b)
    ensures RolledBy(c, s, r, a + b)
  {
    VisitedJoin(c, RotorOf(s), a, b);
    hide Rolled, Full, MasksOk;
    RolledJoin(c, s, t, r, Visited(c, RotorOf(s), a), Visited(c, RotorOf(t), b));
  }

  /** The pages of block x from page on hold the same valid bits in s and t. */
  ghost predicate SameRows(s: Ftl, t: Ftl, x: nat, page: nat) {
    && x in s.blocks && x in t.blocks && |s.blocks[x].valid| == |t.blocks[x].valid|
    && forall p :: page <= p < |s.blocks[x].valid| ==> s.blocks[x].valid[p] == t.blocks[x].valid[p]
  }

  lemma ClearedRows(c: Config, s: Ftl, t: Ftl, b: nat, lo: nat, hi: nat, x: nat, page: nat)
    requires ConfigOk(c) && Shape(c, s) && Shape(c, t) && Cleared(c, s, t, b, lo, hi) && Full(c, s, x)
    requires x == b ==> hi <= page
    ensures SameRows(s, t, x, page)
  {
    assert Full(c, t, x);
    assert BlockOk(s.blocks[x], c.pagesInBlock, c.ioUnits) && BlockOk(t.blocks[x], c.pagesInBlock, c.ioUnits);
    forall p | page <= p < |s.blocks[x].valid| ensures s.blocks[x].valid[p] == t.blocks[x].valid[p] {
      forall w | 0 <= w < c.ioUnits ensures s.blocks[x].valid[p][w] == t.blocks[x].valid[p][w] {
        assert Live(s, x, p, w) == s.blocks[x].valid[p][w];
        assert Live(t, x, p, w) == t.blocks[x].valid[p][w];
      }
    }
  }

  lemma {:induction false} SameBlockMasks(c: Config, s: Ftl, t: Ftl, x: nat, page: nat)
    requires ConfigOk(c) && Shape(c, s) && Shape(c, t) && SameRows(s, t, x, page)
    ensures BlockMasks(c, s, x, page) == BlockMasks(c, t, x, page)
    decreases c.pagesInBlock - page
  {
    assert BlockOk(s.blocks[x], c.pagesInBlock, c.ioUnits) && BlockOk(t.blocks[x], c.pagesInBlock, c.ioUnits);
    if page < c.pagesInBlock {
      SameBlockMasks(c, s, t, x, page + 1);
    }
  }

  lemma ClearedFull(c: Config, s: Ftl, t: Ftl, b: nat, lo: nat, hi: nat)
    requires Cleared(c, s, t, b, lo, hi)
    ensures forall x :: Full(c, s, x) ==> Full(c, t, x)
  {
    hide Full;
  }

  /** Copying one page of a full block leaves the requests of its later pages as they were. */
  lemma CopyOnePage(c: Config, s: Ftl, b: nat, page: nat)
    requires Inv(c, s) && Full(c, s, b) && page < c.pagesInBlock && b in s.blocks && CopyPage(c, s, b, page, false).Ok?
    ensures var t := CopyPage(c, s, b, page, false).value;
      && Inv(c, t) && Full(c, t, b) && (forall x :: Full(c, s, x) ==> Full(c, t, x))
      && BlockMasks(c, s, b, page + 1) == BlockMasks(c, t, b, page + 1)
  {
    hide Shape, FreeOk, TableSound, SlotsMapped, Lookup, ConfigOk, Full, Cleared, CopyPage, SameRows, SameLookup;
    CopyPageCore(c, s, b, page, false);
    var t := CopyPage(c, s, b, page, false).value;
    ClearedFull(c, s, t, b, page, page + 1);
    ClearedRows(c, s, t, b, page, page + 1, b, page + 1);
    SameBlockMasks(c, s, t, b, page + 1);
  }

  lemma {:induction false} CopyPagesRolled(c: Config, s: Ftl, b: nat, page: nat)
    requires Inv(c, s) && Full(c, s, b) && page <= c.pagesInBlock && b in s.blocks && CopyPages(c, s, b, page, 1, false).Ok?
    ensures RolledBy(c, s, CopyPages(c, s, b, page, 1, false).value, BlockMasks(c, s, b, page))
    decreases c.pagesInBlock - page
  {
    MasksFit(c, s, BlockMasks(c, s, b, page));
    if page == c.pagesInBlock {
      NoMasks(c, s);
    } else {
      hide Shape, FreeOk, TableSound, SlotsMapped, Lookup, ConfigOk, Full, CopyPage, PageMask, Rolled, RolledBy;
      CopyOnePage(c, s, b, page);
      CopyPageRolled(c, s, b, page, false);
      var t := CopyPage(c, s, b, page, false).value;
      CopyPagesRolled(c, t, b, page + 1);
      MasksFit(c, s, BlockMasks(c, s, b, page + 1));
      RolledByJoin(c, s, t, CopyPages(c, t, b, page + 1, 1, false).value, PageMask(c, s, b, page),
                   BlockMasks(c, s, b, page + 1));
    }
  }

  lemma NoMasks(c: Config, s: Ftl)
    requires Shape(c, s)
    ensures RolledBy(c, s, s, [])
  {
    MasksFit(c, s, []);
    SamePointsRolled(c, s, s);
  }

  lemma CopyPagesCleared(c: Config, s: Ftl, b: nat, j: nat, victims: seq<nat>)
    requires Inv(c, s) && Full(c, s, b) && VictimsOk(c, s, victims) && CopyPages(c, s, b, 0, 1, false).Ok?
    requires j < |victims| && victims[j] != b
    ensures SameRows(s, CopyPages(c, s, b, 0, 1, false).value, victims[j], 0)
  {
    CopyPagesCore(c, s, b, 0, 1, false);
    hide Cleared, Full, Live;
    assert Full(c, s, victims[j]);
    ClearedRows(c, s, CopyPages(c, s, b, 0, 1, false).value, b, 0, c.pagesInBlock, victims[j], 0);
  }

  /** The masks of the remaining victims are unaffected by the copies made so far. */
  lemma {:induction false} SameVictimMasks(c: Config, s: Ftl, t: Ftl, victims: seq<nat>, i: nat)
    requires ConfigOk(c) && Shape(c, s) && Shape(c, t)
    requires forall v :: v in victims ==> v in s.blocks && v in t.blocks
    requires forall j :: i <= j < |victims| ==> SameRows(s, t, victims[j], 0)
    ensures VictimMasks(c, s, victims, i) == VictimMasks(c, t, victims, i)
    decreases |victims| - i
  {
    if i < |victims| {
      SameBlockMasks(c, s, t, victims[i], 0);
      SameVictimMasks(c, s, t, victims, i + 1);
    }
  }

  lemma VictimsInUse(c: Config, s: Ftl, victims: seq<nat>)
    requires VictimsOk(c, s, victims)
    ensures forall v :: v in victims ==> v in s.blocks
  {
    forall v | v in victims ensures v in s.blocks {
      var i :| 0 <= i < |victims| && victims[i] == v;
      assert Full(c, s, victims[i]);
    }
  }

  /** Copying one victim leaves the others in use, full and with their masks. */
  lemma CopyOneVictim(c: Config, s: Ftl, victims: seq<nat>, i: nat)
    requires Inv(c, s) && VictimsOk(c, s, victims) && i < |victims| && CopyPages(c, s, victims[i], 0, 1, false).Ok?
    requires forall v :: v in victims ==> v in s.blocks
    ensures var t := CopyPages(c, s, victims[i], 0, 1, false).value;
      && Inv(c, t) && VictimsOk(c, t, victims)
      && (forall v :: v in victims ==> v in t.blocks)
      && (forall x :: Full(c, s, x) ==> Full(c, t, x))
      && VictimMasks(c, s, victims, i + 1) == VictimMasks(c, t, victims, i + 1)
  {
    var b := victims[i];
    hide Shape, FreeOk, TableSound, SlotsMapped, Lookup, ConfigOk, Full, Cleared, CopyPages, SameRows, SameLookup,
         VictimMasks;
    CopyOneFull(c, s, victims, i);
    var t := CopyPages(c, s, b, 0, 1, false).value;
    forall j | i + 1 <= j < |victims| ensures SameRows(s, t, victims[j], 0) {
      CopyPagesCleared(c, s, b, j, victims);
    }
    SameVictimMasks(c, s, t, victims, i + 1);
  }

  lemma CopyOneFull(c: Config, s: Ftl, victims: seq<nat>, i: nat)
    requires Inv(c, s) && VictimsOk(c, s, victims) && i < |victims| && victims[i] in s.blocks
    requires CopyPages(c, s, victims[i], 0, 1, false).Ok?
    ensures Full(c, s, victims[i])
    ensures var t := CopyPages(c, s, victims[i], 0, 1, false).value;
      && Inv(c, t) && VictimsOk(c, t, victims)
      && (forall v :: v in victims ==> v in t.blocks)
      && (forall x :: Full(c, s, x) ==> Full(c, t, x))
  {
    hide Shape, FreeOk, TableSound, SlotsMapped, Lookup, ConfigOk, Full, Cleared, CopyPages, SameLookup, NextPage, Dead;
    var b := victims[i];
    assert Full(c, s, b);
    CopyPagesCore(c, s, b, 0, 1, false);
    var t := CopyPages(c, s, b, 0, 1, false).value;
    ClearedFull(c, s, t, b, 0, c.pagesInBlock);
    assert forall j :: 0 <= j < |victims| ==> Full(c, s, victims[j]);
    VictimsInUse(c, t, victims);
  }

  lemma {:induction false} CopyVictimsRolled(c: Config, s: Ftl, victims: seq<nat>, i: nat)
    requires Inv(c, s) && VictimsOk(c, s, victims) && i <= |victims| && CopyVictims(c, s, victims, i).Ok?
    requires forall v :: v in victims ==> v in s.blocks
    ensures RolledBy(c, s, CopyVictims(c, s, victims, i).value, VictimMasks(c, s, victims, i))
    decreases |victims| - i
  {
    MasksFit(c, s, VictimMasks(c, s, victims, i));
    if i == |victims| {
      NoMasks(c, s);
    } else {
      var b := victims[i];
      assert Full(c, s, b);
      hide Shape, FreeOk, TableSound, SlotsMapped, Lookup, ConfigOk, Full, CopyPages, Rolled, RolledBy, BlockMasks,
           VictimsOk;
      CopyPagesRolled(c, s, b, 0);
      CopyOneVictim(c, s, victims, i);
      var t := CopyPages(c, s, b, 0, 1, false).value;
      CopyVictimsRolled(c, t, victims, i + 1);
      MasksFit(c, s, VictimMasks(c, s, victims, i + 1));
      RolledByJoin(c, s, t, CopyVictims(c, t, victims, i + 1).value, BlockMasks(c, s, b, 0),
                   VictimMasks(c, s, victims, i + 1));
    }
  }

  /** The write points that the copies of a collection move to, from the state before it. */
  ghost function CollectVisits(c: Config, s: Ftl, victims: seq<nat>): set<nat>
    requires ConfigOk(c) && Shape(c, s) && forall v :: v in victims ==> v in s.blocks
  {
    MasksFit(c, s, VictimMasks(c, s, victims, 0));
    Visited(c, RotorOf(s), VictimMasks(c, s, victims, 0))
  }

  lemma PointsAfterErase(s: Ftl, t: Ftl, victims: seq<nat>)
    requires PointsOk(s) && t.last == s.last
    requires t.blocks == s.blocks - set j | 0 <= j < |victims| :: victims[j]
    ensures PointsOk(t) <==> forall i :: 0 <= i < |s.last| ==> s.last[i] !in victims
  {
  }

  lemma PointsAfterCopy(c: Config, s: Ftl, t: Ftl, victims: seq<nat>, visits: set<nat>)
    requires Rolled(c, s, t, visits) && forall v :: v in victims ==> Full(c, s, v)
    ensures (forall i :: 0 <= i < |t.last| ==> t.last[i] !in victims)
      <==> forall i :: 0 <= i < |s.last| && s.last[i] in victims ==> i in visits
  {
    assert forall x :: Full(c, s, x) ==> x in s.blocks;
    hide NextPage, Full;
    forall i | 0 <= i < |s.last|
      ensures t.last[i] in victims <==> s.last[i] in victims && i !in visits
    {
    }
  }

  /** A collection leaves every write point in use exactly when its copies move to each write
      point that is a victim.  The right-hand side depends on the state before the collection
      only: the positions reached from the current write point by one request per copied page. */
  lemma CollectKeepsPoints(c: Config, s: Ftl, victims: seq<nat>)
    requires Inv(c, s) && VictimsOk(c, s, victims) && PointsOk(s) && Collect(c, s, victims).Ok?
    ensures forall v :: v in victims ==> v in s.blocks
    ensures PointsOk(Collect(c, s, victims).value) <==>
      forall i :: 0 <= i < |s.last| && s.last[i] in victims ==> i in CollectVisits(c, s, victims)
  {
    VictimsInUse(c, s, victims);
    var t := CopyVictims(c, s, victims, 0).value;
    CopyVictimsCore(c, s, victims, 0);
    CopyVictimsRolled(c, s, victims, 0);
    EraseVictimsCore(c, t, victims, 0);
    forall v | v in victims ensures Full(c, s, v) {
      var i :| 0 <= i < |victims| && victims[i] == v;
    }
    hide Shape, FreeOk, TableSound, SlotsMapped, Lookup, ConfigOk, Full, PointsOk, VictimMasks;
    assert PointsOk(t) by { hide NextPage; assert RolledBy(c, s, t, VictimMasks(c, s, victims, 0)); }
    PointsAfterErase(t, Collect(c, s, victims).value, victims);
    PointsAfterCopy(c, s, t, victims, CollectVisits(c, s, victims));
  }

  // ---------------------------------------------------------------------------------------
  // Runs whose collections keep the write points

  /** r does not stop for a lost write point, and its write points are in use. */
  ghost predicate KeepsPoints(r: Result<Ftl>) {
    r != Panic(WritePointLost) && (r.Ok? ==> PointsOk(r.value))
  }

  lemma CopyPagePoints(c: Config, s: Ftl, b: nat, page: nat, refresh: bool)
    requires Inv(c, s) && b in s.blocks && page < c.pagesInBlock && PointsOk(s)
    ensures KeepsPoints(CopyPage(c, s, b, page, refresh))
  {
    CopyPageCore(c, s, b, page, refresh);
    if CopyPage(c, s, b, page, refresh).Ok? {
      CopyPageRolled(c, s, b, page, refresh);
    }
  }

  lemma {:induction false} CopyPagesPoints(c: Config, s: Ftl, b: nat, page: nat, step: nat, refresh: bool)
    requires Inv(c, s) && b in s.blocks && 0 < step && PointsOk(s)
    ensures KeepsPoints(CopyPages(c, s, b, page, step, refresh))
    decreases c.pagesInBlock - page
  {
    hide Shape, FreeOk, TableSound, SlotsMapped, Lookup, ConfigOk, CopyPage, PointsOk;
    if page < c.pagesInBlock {
      CopyPagePoints(c, s, b, page, refresh);
      CopyPageCore(c, s, b, page, refresh);
      if CopyPage(c, s, b, page, refresh).Ok? {
        CopyPagesPoints(c, CopyPage(c, s, b, page, refresh).value, b, page + step, step, refresh);
      }
    }
  }

  lemma {:induction false} CopyVictimsPoints(c: Config, s: Ftl, victims: seq<nat>, i: nat)
    requires Inv(c, s) && PointsOk(s)
    ensures KeepsPoints(CopyVictims(c, s, victims, i))
    decreases |victims| - i
  {
    hide Shape, FreeOk, TableSound, SlotsMapped, Lookup, ConfigOk, CopyPages, PointsOk;
    if i < |victims| && victims[i] in s.blocks {
      CopyPagesPoints(c, s, victims[i], 0, 1, false);
      assert 0 <= c.pagesInBlock;
      CopyPagesCore(c, s, victims[i], 0, 1, false);
      if CopyPages(c, s, victims[i], 0, 1, false).Ok? {
        CopyVictimsPoints(c, CopyPages(c, s, victims[i], 0, 1, false).value, victims, i + 1);
      }
    }
  }

  /** The copies of the collection move to every write point that is a victim. */
  ghost predicate Replaces(c: Config, s: Ftl, victims: seq<nat>)
    requires ConfigOk(c) && Shape(c, s)
  {
    && (forall v :: v in victims ==> v in s.blocks)
    && (forall i :: 0 <= i < |s.last| && s.last[i] in victims ==> i in CollectVisits(c, s, victims))
  }

  lemma CollectPoints(c: Config, s: Ftl, victims: seq<nat>)
    requires Inv(c, s) && PointsOk(s)
    requires GcNeeded(c, s) ==> VictimsOk(c, s, victims) && Replaces(c, Chosen(s), victims)
    ensures KeepsPoints(CollectIfNeeded(c, s, victims))
  {
    if GcNeeded(c, s) {
      var s0 := Chosen(s);
      FrameCore(c, s, s0, {});
      assert VictimsOk(c, s0, victims) && PointsOk(s0);
      hide Shape, FreeOk, TableSound, SlotsMapped, Lookup, ConfigOk, PointsOk, CopyVictims, EraseVictims, Chosen;
      CopyVictimsPoints(c, s0, victims, 0);
      CopyVictimsCore(c, s0, victims, 0);
      if CopyVictims(c, s0, victims, 0).Ok? {
        EraseVictimsCore(c, CopyVictims(c, s0, victims, 0).value, victims, 0);
        if Collect(c, s0, victims).Ok? {
          CollectKeepsPoints(c, s0, victims);
        }
      }
    }
  }

  lemma WriteCorePoints(c: Config, s: Ftl, lpn: nat, flag: seq<bool>, data: seq<nat>)
    requires Inv(c, s) && FlagOk(c, flag) && |data| == Units(c) && PointsOk(s)
    ensures KeepsPoints(WriteCore(c, s, lpn, flag, data))
  {
    WriteCoreCore(c, s, lpn, flag, data);
    if WriteCore(c, s, lpn, flag, data).Ok? {
      PrepareCore(c, s, lpn, flag);
      var s1 := PrepareWrite(c, s, lpn, flag).value;
      hide Shape, FreeOk, TableSound, SlotsMapped, Lookup, ConfigOk, PrepareWrite, GetLastFreeBlock, WriteUnits, Full, Rotate;
      SamePointsRolled(c, s, s1);
      GetLastRolled(c, s1, flag, Selection(c, lpn, flag, 0, Units(c)));
      SamePointsRolled(c, GetLastFreeBlock(c, s1, flag).value.0, WriteCore(c, s, lpn, flag, data).value);
    }
  }

  lemma TrimPoints(c: Config, s: Ftl, lpn: nat)
    requires Inv(c, s) && PointsOk(s)
    ensures KeepsPoints(Trim(c, s, lpn))
  {
    TrimCore(c, s, lpn);
  }

  lemma {:induction false} DrainPoints(c: Config, s: Ftl, num: nat, n: nat)
    requires Inv(c, s) && num < c.queues.queueCount && PointsOk(s)
    ensures KeepsPoints(Drain(c, s, num, n))
    decreases n
  {
    assert |s.queues.checked| == c.queues.queueCount;
    if n > 0 && s.queues.checked[num] != [] {
      RefreshLayerCore(c, s, num);
      RefreshLayerPoints(c, s, num);
      hide Shape, FreeOk, TableSound, SlotsMapped, Lookup, ConfigOk, RefreshLayer, PointsOk;
      if RefreshLayer(c, s, num).Ok? {
        DrainPoints(c, RefreshLayer(c, s, num).value, num, n - 1);
      }
    }
  }

  lemma RefreshLayerPoints(c: Config, s: Ftl, num: nat)
    requires Inv(c, s) && num < c.queues.queueCount && s.queues.checked[num] != [] && PointsOk(s)
    ensures KeepsPoints(RefreshLayer(c, s, num))
  {
    if Q.Pop(c.queues, s.queues, num).Ok? {
      PopPreserved(c, s, num);
      var p := Q.Pop(c.queues, s.queues, num).value;
      var s1 := s.(queues := p.q);
      assert PointsOk(s1);
      hide Shape, FreeOk, TableSound, SlotsMapped, Lookup, ConfigOk, PointsOk, Q.Pop, CopyPages;
      var b, first := p.layer / Q.LAYERS_PER_BLOCK, p.layer % Q.LAYERS_PER_BLOCK;
      if p.refreshNow && b in s.blocks {
        CopyPagesPoints(c, s1, b, first, Q.LAYERS_PER_BLOCK, true);
      }
    }
  }

  /** Every collection of op replaces the write points among its victims. */
  ghost predicate Careful(c: Config, s: Ftl, op: Op)
    requires ConfigOk(c) && Shape(c, s) && WellFormed(c, op)
  {
    match op
    case HostWrite(lpn, flag, data, sendToPal, victims) =>
      var r := WriteCore(c, s, lpn, flag, data);
      r.Ok? && GcNeeded(c, r.value) ==> Replaces(c, Chosen(r.value), victims)
    case HostTrim(_) => true
    case RefreshEvent(before, after) =>
      var num := Q.Target(c.queues, s.queues);
      var s1 := SwapQueues(c, s, num);
      var r1 := CollectIfNeeded(c, s1, before);
      && (GcNeeded(c, s1) ==> Replaces(c, Chosen(s1), before))
      && (r1.Ok? ==>
        var r2 := Drain(c, r1.value, num, c.queues.maxLayers);
        r2.Ok? && GcNeeded(c, r2.value) ==> Replaces(c, Chosen(r2.value), after))
  }

  lemma SwapPoints(c: Config, s: Ftl, num: nat)
    requires Inv(c, s) && PointsOk(s) && num < c.queues.queueCount
    ensures Inv(c, SwapQueues(c, s, num)) && PointsOk(SwapQueues(c, s, num))
  {
    FrameCore(c, s, SwapQueues(c, s, num), {});
    hide Core;
  }

  lemma RefreshPoints(c: Config, s: Ftl, before: seq<nat>, after: seq<nat>)
    requires Inv(c, s) && RefreshVictimsOk(c, s, before, after) && PointsOk(s)
    requires Careful(c, s, RefreshEvent(before, after))
    ensures KeepsPoints(Refresh(c, s, before, after))
  {
    hide Shape, FreeOk, TableSound, SlotsMapped, Lookup, GcNeeded, VictimsOk, CollectIfNeeded, Drain,
         SwapQueues, Replaces, Chosen, PointsOk, SameLookup, CountCall;
    var num := Q.Target(c.queues, s.queues);
    var s1 := SwapQueues(c, s, num);
    SwapPoints(c, s, num);
    CollectIfNeededCore(c, s1, before);
    CollectPoints(c, s1, before);
    if CollectIfNeeded(c, s1, before).Ok? {
      var s2 := CollectIfNeeded(c, s1, before).value;
      DrainCore(c, s2, num, c.queues.maxLayers);
      DrainPoints(c, s2, num, c.queues.maxLayers);
      if Drain(c, s2, num, c.queues.maxLayers).Ok? {
        CollectPoints(c, Drain(c, s2, num, c.queues.maxLayers).value, after);
        if Refresh(c, s, before, after).Ok? {
          CountCallPoints(c, CollectIfNeeded(c, Drain(c, s2, num, c.queues.maxLayers).value, after).value);
        }
      }
    }
  }

  lemma CountCallPoints(c: Config, s: Ftl)
    requires ConfigOk(c) && Shape(c, s) && PointsOk(s)
    ensures PointsOk(CountCall(c, s))
  {
  }

  lemma WriteInternalPoints(c: Config, s: Ftl, op: Op)
    requires Inv(c, s) && WellFormed(c, op) && Legal(c, s, op) && Careful(c, s, op) && PointsOk(s) && op.HostWrite?
    ensures KeepsPoints(WriteInternal(c, s, op.lpn, op.flag, op.data, op.sendToPal, op.victims))
  {
    hide Shape, FreeOk, TableSound, SlotsMapped, Lookup, ConfigOk, GcNeeded, VictimsOk, CollectIfNeeded, WriteCore,
         Replaces, Chosen, PointsOk, Stored;
    WriteCoreCore(c, s, op.lpn, op.flag, op.data);
    WriteCorePoints(c, s, op.lpn, op.flag, op.data);
    if WriteCore(c, s, op.lpn, op.flag, op.data).Ok? {
      CollectPoints(c, WriteCore(c, s, op.lpn, op.flag, op.data).value, op.victims);
    }
  }

  ghost predicate CarefulRun(c: Config, s: Ftl, ops: seq<Op>)
    requires ConfigOk(c) && Shape(c, s) && forall op :: op in ops ==> WellFormed(c, op)
    decreases |ops|
  {
    ops != [] ==>
      && Legal(c, s, ops[0]) && Careful(c, s, ops[0])
      && (Step(c, s, ops[0]).Ok? ==> CarefulRun(c, Step(c, s, ops[0]).value, ops[1..]))
  }

  lemma StepPoints(c: Config, s: Ftl, op: Op)
    requires Inv(c, s) && WellFormed(c, op) && Legal(c, s, op) && Careful(c, s, op) && PointsOk(s)
    ensures KeepsPoints(Step(c, s, op))
    ensures Step(c, s, op).Ok? ==> Inv(c, Step(c, s, op).value)
  {
    hide Shape, FreeOk, TableSound, SlotsMapped, Lookup, ConfigOk, PointsOk, WriteInternal, Trim, Refresh, WriteCore;
    match op
    case HostWrite(lpn, flag, data, sendToPal, victims) =>
      WriteInternalCore(c, s, lpn, flag, data, sendToPal, victims);
      WriteInternalPoints(c, s, op);
    case HostTrim(lpn) =>
      TrimCore(c, s, lpn);
      TrimPoints(c, s, lpn);
    case RefreshEvent(before, after) =>
      RefreshCore(c, s, before, after);
      RefreshPoints(c, s, before, after);
  }

  /** As long as every collection replaces the write points among its victims, no run stops for a
      lost write point. */
  lemma {:induction false} RunKeepsPoints(c: Config, s: Ftl, ops: seq<Op>)
    requires Inv(c, s) && PointsOk(s) && forall op :: op in ops ==> WellFormed(c, op)
    requires CarefulRun(c, s, ops)
    ensures KeepsPoints(Run(c, s, ops))
    decreases |ops|
  {
    hide Shape, FreeOk, TableSound, SlotsMapped, Lookup, ConfigOk, PointsOk, Legal, Careful, Step, WellFormed;
    if ops != [] {
      StepPoints(c, s, ops[0]);
      if Step(c, s, ops[0]).Ok? {
        RunKeepsPoints(c, Step(c, s, ops[0]).value, ops[1..]);
      }
    }
  }

  // ---------------------------------------------------------------------------------------
  // The constructor, and a collection without valid slots

  /** The first i write points are in use and distinct. */
  ghost predicate FirstPoints(s: Ftl, i: nat) {
    && i <= |s.last|
    && (forall j :: 0 <= j < i ==> s.last[j] in s.blocks)
    && (forall j, k :: 0 <= j < k < i ==> s.last[j] != s.last[k])
  }

  lemma LastSize(c: Config, s: Ftl)
    requires Shape(c, s)
    ensures |s.last| == c.maxPerf
  {
  }

  lemma TakeOnePoint(c: Config, s: Ftl, i: nat)
    requires Inv(c, s) && i < c.maxPerf && FirstPoints(s, i) && TakePoint(c, s, i).Ok?
    ensures FirstPoints(TakePoint(c, s, i).value, i + 1)
  {
    hide Shape, FreeOk, TableSound, SlotsMapped, Lookup, ConfigOk, GetFreeBlock, SameLookup, Clean;
    LastSize(c, s);
    GetFreeCore(c, s, i, {});
  }

  lemma {:induction false} TakeWritePointsPoints(c: Config, s: Ftl, i: nat)
    requires Inv(c, s) && i <= c.maxPerf && FirstPoints(s, i) && TakeWritePoints(c, s, i).Ok?
    ensures PointsOk(TakeWritePoints(c, s, i).value)
    decreases c.maxPerf - i
  {
    LastSize(c, s);
    TakeUnfolded(c, s, i);
    hide Shape, FreeOk, TableSound, SlotsMapped, SameLookup, ConfigOk, TakePoint, TakeWritePoints;
    if i < c.maxPerf {
      TakeOneCore(c, s, i);
      TakeOnePoint(c, s, i);
      TakeWritePointsPoints(c, TakePoint(c, s, i).value, i + 1);
    }
  }

  lemma BlankPoints(c: Config)
    requires ConfigOk(c)
    ensures FirstPoints(Blank(c), 0)
  {
  }

  /** After construction every write point is in use. */
  lemma ConstructPoints(c: Config)
    requires ConfigOk(c) && Construct(c).Ok?
    ensures Inv(c, Construct(c).value) && PointsOk(Construct(c).value)
  {
    hide Shape, ConfigOk, FreeOk, TableSound, SlotsMapped, Lookup, TakeWritePoints, Blank;
    BlankCore(c);
    ConstructCore(c);
    BlankPoints(c);
    TakeWritePointsPoints(c, Blank(c), 0);
  }

  /** A run from the constructor whose collections replace the write points that they take never
      meets a lost one. */
  lemma NoPointLost(c: Config, ops: seq<Op>)
    requires ConfigOk(c) && Construct(c).Ok? && forall op :: op in ops ==> WellFormed(c, op)
    requires CarefulRun(c, Construct(c).value, ops)
    ensures KeepsPoints(Run(c, Construct(c).value, ops))
  {
    hide Shape, ConfigOk, FreeOk, TableSound, SlotsMapped, Construct, CarefulRun, WellFormed, PointsOk;
    ConstructPoints(c);
    RunKeepsPoints(c, Construct(c).value, ops);
  }

  lemma DeadRow(c: Config, s: Ftl, b: nat, page: nat)
    requires ConfigOk(c) && Shape(c, s) && Dead(s, b) && page < c.pagesInBlock
    ensures b in s.blocks && page < |s.blocks[b].valid| && !Any(s.blocks[b].valid[page])
  {
    assert BlockOk(s.blocks[b], c.pagesInBlock, c.ioUnits);
    forall u | 0 <= u < |s.blocks[b].valid[page]| ensures !s.blocks[b].valid[page][u] {
      assert !Live(s, b, page, u);
    }
  }

  lemma {:induction false} DeadCopied(c: Config, s: Ftl, b: nat, page: nat, step: nat, refresh: bool)
    requires ConfigOk(c) && Shape(c, s) && Dead(s, b) && 0 < step
    ensures CopyPages(c, s, b, page, step, refresh) == Ok(s)
    decreases c.pagesInBlock - page
  {
    hide Shape, ConfigOk, Any, BlockOk, Dead;
    if page < c.pagesInBlock {
      DeadRow(c, s, b, page);
      DeadCopied(c, s, b, page + step, step, refresh);
    }
  }

  lemma {:induction false} DeadVictimsCopied(c: Config, s: Ftl, victims: seq<nat>, i: nat)
    requires ConfigOk(c) && Shape(c, s) && i <= |victims| && forall j :: i <= j < |victims| ==> Dead(s, victims[j])
    ensures CopyVictims(c, s, victims, i) == Ok(s)
    decreases |victims| - i
  {
    if i < |victims| {
      hide Shape, ConfigOk, CopyPages, Live;
      DeadCopied(c, s, victims[i], 0, 1, false);
      DeadVictimsCopied(c, s, victims, i + 1);
    }
  }

  /** s and t differ in their blocks, their free list and the retired blocks only. */
  ghost predicate SameFront(s: Ftl, t: Ftl) {
    t.table == s.table && t.last == s.last && t.lastIndex == s.lastIndex && t.ioMap == s.ioMap && t.free != []
  }

  lemma EraseFront(c: Config, s: Ftl, b: nat)
    requires ConfigOk(c) && Shape(c, s) && s.free != [] && EraseBlock(c, s, b).Ok?
    ensures SameFront(s, EraseBlock(c, s, b).value)
  {
    hide Shape, ConfigOk, Erase;
  }

  lemma {:induction false} DeadVictimsErased(c: Config, s: Ftl, victims: seq<nat>, i: nat)
    requires Inv(c, s) && i <= |victims| && s.free != []
    requires forall j :: i <= j < |victims| ==> Dead(s, victims[j])
    requires forall j, k :: 0 <= j < k < |victims| ==> victims[j] != victims[k]
    ensures EraseVictims(c, s, victims, i).Ok? && SameFront(s, EraseVictims(c, s, victims, i).value)
    decreases |victims| - i
  {
    hide Shape, FreeOk, TableSound, SlotsMapped, Lookup, ConfigOk, EraseBlock;
    if i < |victims| {
      EraseCore(c, s, victims[i]);
      EraseFront(c, s, victims[i]);
      var t := EraseBlock(c, s, victims[i]).value;
      DropLive(s, t, victims[i]);
      forall j | i + 1 <= j < |victims| ensures Dead(t, victims[j]) {
        assert Dead(s, victims[j]) && victims[i] != victims[j];
      }
      hide Dead;
      DeadVictimsErased(c, t, victims, i + 1);
    }
  }

  /** A collection of blocks without valid slots copies nothing and erases them; a write point that
      is among them is lost. */
  lemma DeadCollected(c: Config, s: Ftl, victims: seq<nat>)
    requires Inv(c, s) && VictimsOk(c, s, victims) && s.free != [] && forall v :: v in victims ==> Dead(s, v)
    ensures var r := Collect(c, s, victims);
      r.Ok? && Preserved(c, s, r.value) && SameFront(s, r.value) && forall v :: v in victims ==> v !in r.value.blocks
  {
    hide Shape, FreeOk, TableSound, SlotsMapped, Lookup, ConfigOk, Dead, Full, CopyVictims, EraseVictims, Preserved;
    DeadVictimsCopied(c, s, victims, 0);
    DeadVictimsErased(c, s, victims, 0);
    CollectCore(c, s, victims);
  }
}

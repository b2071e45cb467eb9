/** A run from the constructor in which the write that takes the last free block starts a collection:
    the erased block goes back to an empty free list, whose last element is read. */
module FreeListUnderrun {
  import opened Outcome
  import opened FlashBlock
  import opened FtlModel
  import opened FtlInvariant
  import opened FtlOperations
  import opened FtlRuns
  import opened FtlWritePoints
  import opened RandomSelection
  import opened SoloWrites
  import opened VictimSelection
  import Q = RefreshQueues

  // ---------------------------------------------------------------------------------------
  // When a collection meets an empty free list

  /** Block b goes back to the free list when it is erased. */
  predicate Returns(c: Config, s: Ftl, b: nat)
    requires b in s.blocks
  {
    s.blocks[b].eraseCount + 1 < c.badBlockThreshold
  }

  /** A retired block leaves the free list empty. */
  lemma EraseRetired(c: Config, s: Ftl, b: nat)
    requires Inv(c, s) && Dead(s, b) && s.free == [] && EraseBlock(c, s, b).Ok?
    ensures var t := EraseBlock(c, s, b).value;
      t.free == [] && t.blocks == s.blocks - {b}
  {
    hide Shape, FreeOk, TableSound, SlotsMapped, ConfigOk;
  }

  /** Erasing the victims of a collection fails if and only if no block is free and one of them is
      not yet worn out. */
  lemma {:induction false} EraseVictimsExactly(c: Config, s: Ftl, victims: seq<nat>, i: nat)
    requires Inv(c, s) && i <= |victims|
    requires forall j :: i <= j < |victims| ==> victims[j] in s.blocks && Dead(s, victims[j])
    requires forall j, k :: 0 <= j < k < |victims| ==> victims[j] != victims[k]
    ensures EraseVictims(c, s, victims, i).Panic? <==>
      s.free == [] && exists j :: i <= j < |victims| && Returns(c, s, victims[j])
    decreases |victims| - i
  {
    hide Shape, FreeOk, TableSound, SlotsMapped, Lookup, ConfigOk, EraseBlock, Live;
    if s.free != [] {
      DeadVictimsErased(c, s, victims, i);
    } else if i < |victims| {
      EraseCore(c, s, victims[i]);
      if EraseBlock(c, s, victims[i]).Ok? {
        var t := EraseBlock(c, s, victims[i]).value;
        EraseRetired(c, s, victims[i]);
        DropLive(s, t, victims[i]);
        forall j | i + 1 <= j < |victims| ensures victims[j] in t.blocks && Dead(t, victims[j]) {
          assert Dead(s, victims[j]) && victims[i] != victims[j];
        }
        EraseVictimsExactly(c, t, victims, i + 1);
      }
    }
  }

  lemma VictimsUsed(c: Config, s: Ftl, victims: seq<nat>)
    requires VictimsOk(c, s, victims)
    ensures forall j :: 0 <= j < |victims| ==> victims[j] in s.blocks
  {
  }

  /** A collection meets the empty list if and only if its copies leave no block free and one of its
      victims is not yet worn out. */
  lemma CollectUnderruns(c: Config, s: Ftl, victims: seq<nat>)
    requires Inv(c, s) && VictimsOk(c, s, victims)
    ensures Collect(c, s, victims) == Panic(EmptyFreeList) <==>
      var r := CopyVictims(c, s, victims, 0);
      r.Ok? && r.value.free == [] && exists v :: v in victims && v in r.value.blocks && Returns(c, r.value, v)
  {
    hide Shape, FreeOk, TableSound, SlotsMapped, Lookup, ConfigOk, Dead, Full, CopyVictims, EraseVictims, Returns;
    CopyVictimsCore(c, s, victims, 0);
    var r := CopyVictims(c, s, victims, 0);
    if r.Ok? {
      VictimsUsed(c, r.value, victims);
      EraseVictimsExactly(c, r.value, victims, 0);
      EraseVictimsCore(c, r.value, victims, 0);
    }
  }

  // ---------------------------------------------------------------------------------------
  // The run

  /** Two blocks of 512 one-unit pages, one write point, and a collection of one block (and one more
      after the write point was replaced) whenever less than half of the blocks are free. */
  const FILLING: Config := Config(2, 512, 1, 1, false, 0, 0.5, 1, 10,
                                  Q.QueueConfig(1, false, 1, 1, 128, (_, _, _, _) => false))

  lemma ConfigFits()
    ensures ConfigOk(FILLING)
  {
  }

  /** The write that found block 0 full has taken block b, the last free one. */
  ghost predicate Due(s: Ftl, b: nat) {
    && Solo(FILLING, s) && s.table == map[0 := [Loc(b, 0)]] && b != 0 && s.blocks.Keys == {0, b}
    && s.nFree == 0 && s.reclaimMore
    && s.blocks[0].next == [512] && s.blocks[0].eraseCount == 0 && s.blocks[b].next == [1]
  }

  lemma FullAtEnd(s: Ftl)
    requires OnePoint(FILLING, s, 512)
    ensures Full(FILLING, s, 0) && NextPoint(FILLING, s) == 0 && s.last[0] == 0 && s.free != []
  {
    hide FreeOk, TableSound, SlotsMapped, ConfigOk;
    OneUnitNext(s.blocks[0], 512);
  }

  lemma WriteDue(s: Ftl) returns (b: nat)
    requires ConfigOk(FILLING) && OnePoint(FILLING, s, 512) && Shape(FILLING, s)
    ensures var r := WriteCore(FILLING, s, 0, [true], [0]);
      r.Ok? && Due(r.value, b)
  {
    hide Shape, ConfigOk, WriteCore, Inv;
    FullAtEnd(s);
    b := ReplaceOnce(FILLING, s);
  }

  lemma DueShape(s: Ftl, b: nat)
    requires Due(s, b)
    ensures ConfigOk(FILLING) && Shape(FILLING, s) && s.free == []
  {
    hide FreeOk, TableSound, SlotsMapped;
  }

  /** Block 0 is the only full block, and it has no valid pages. */
  lemma DueVictim(s: Ftl, b: nat)
    requires Due(s, b)
    ensures GcNeeded(FILLING, s) && Lightest(FILLING, Greedy, s, [0], FILLING.reclaimBlocks + FILLING.maxPerf)
    ensures VictimsOk(FILLING, s, [0]) && Dead(s, 0) && s.reclaimMore
  {
    hide FreeOk, TableSound, SlotsMapped, ConfigOk;
    OneUnitNext(s.blocks[0], 512);
    OneUnitNext(s.blocks[b], 512);
    hide Solo, Dead;
    OthersDead(FILLING, s, b, 0, 0);
  }

  lemma ChosenSame(s: Ftl)
    requires ConfigOk(FILLING) && Shape(FILLING, s) && Dead(s, 0)
    ensures Shape(FILLING, Chosen(s)) && Dead(Chosen(s), 0)
  {
    assert forall p: nat, u: nat :: Live(Chosen(s), 0, p, u) == Live(s, 0, p, u);
  }

  /** Nothing is copied, and there is no free block behind which block 0 could be put. */
  lemma CollectDue(s: Ftl, b: nat)
    requires ConfigOk(FILLING) && Due(s, b) && Shape(FILLING, s)
    ensures VictimsOk(FILLING, s, [0]) && CollectIfNeeded(FILLING, s, [0]) == Panic(EmptyFreeList)
  {
    hide Shape, ConfigOk, FreeOk, TableSound, SlotsMapped, GcNeeded, Full, Dead, EraseVictims, CopyVictims, Lightest;
    DueShape(s, b);
    DueVictim(s, b);
    ChosenSame(s);
    FrameCore(FILLING, s, Chosen(s), {});
    DeadVictimsCopied(FILLING, Chosen(s), [0], 0);
    EraseVictimsExactly(FILLING, Chosen(s), [0], 0);
    assert Returns(FILLING, Chosen(s), [0][0]);
    EraseVictimsCore(FILLING, Chosen(s), [0], 0);
  }

  /** The write in s needs a collection, and the greedy policy then chooses victims. */
  ghost predicate GreedyTakes(s: Ftl, victims: seq<nat>)
    requires ConfigOk(FILLING) && Shape(FILLING, s)
  {
    var r := WriteCore(FILLING, s, 0, [true], [0]);
    && r.Ok? && GcNeeded(FILLING, r.value) && r.value.reclaimMore
    && Lightest(FILLING, Greedy, r.value, victims, FILLING.reclaimBlocks + FILLING.maxPerf)
  }

  lemma LastWrite(s: Ftl)
    requires ConfigOk(FILLING) && OnePoint(FILLING, s, 512) && Shape(FILLING, s)
    ensures AllWellFormed(FILLING, [Write0([0])]) && LegalRun(FILLING, s, [Write0([0])])
    ensures Run(FILLING, s, [Write0([0])]) == Panic(EmptyFreeList) && GreedyTakes(s, [0])
  {
    hide Shape, ConfigOk, OnePoint, Due, Solo, WriteCore, CollectIfNeeded, GcNeeded, VictimsOk, Lightest;
    var b := WriteDue(s);
    var t := WriteCore(FILLING, s, 0, [true], [0]).value;
    CollectDue(t, b);
    DueVictim(t, b);
    assert [true][0];
    assert Step(FILLING, s, Write0([0])) == Panic(EmptyFreeList);
  }

  /** 512 writes of one page and another one. */
  function Filling(): seq<Op> {
    Writes(512) + [Write0([0])]
  }

  /** The counterexample: a legal run from the constructor, with the victim that the greedy policy
      chooses, that ends with the access to the empty free list. */
  lemma FreeListIsEmpty()
    ensures ConfigOk(FILLING) && Construct(FILLING).Ok? && AllWellFormed(FILLING, Filling())
    ensures LegalRun(FILLING, Construct(FILLING).value, Filling())
    ensures Run(FILLING, Construct(FILLING).value, Filling()) == Panic(EmptyFreeList)
    ensures forall op :: op in Writes(512) ==> WellFormed(FILLING, op)
    ensures Run(FILLING, Construct(FILLING).value, Writes(512)).Ok?
    ensures GreedyTakes(Run(FILLING, Construct(FILLING).value, Writes(512)).value, [0])
  {
    hide Shape, OnePoint, LegalRun, Run, Construct, Writes, WellFormed, GreedyTakes;
    ConfigFits();
    ConstructOnePoint(FILLING);
    var s := Construct(FILLING).value;
    EnoughFree(s);
    hide ConfigOk, GcNeeded;
    var t := OnePointWrites(FILLING, s, 512);
    OnePointShape(FILLING, t, 512);
    LastWrite(t);
    RunJoin(FILLING, s, Writes(512), t, [Write0([0])]);
  }

  // ---------------------------------------------------------------------------------------
  // The same collection with the random policy

  /** The write in s needs a collection of two blocks, and whatever the random policy draws, it never
      has two. */
  ghost predicate DrawsForever(s: Ftl)
    requires ConfigOk(FILLING) && Shape(FILLING, s)
  {
    var r := WriteCore(FILLING, s, 0, [true], [0]);
    && r.Ok? && GcNeeded(FILLING, r.value) && r.value.reclaimMore && FILLING.reclaimBlocks + FILLING.maxPerf == 2
    && forall weight, except, draws :: WeighsFull(FILLING, Greedy, r.value.blocks, weight) && LegalDraws(weight, draws) ==>
      |Taken(weight, except, 2, draws)| < 2
  }

  lemma OnlyFull(s: Ftl, b: nat)
    requires Due(s, b)
    ensures forall x :: Full(FILLING, s, x) ==> x == 0
  {
    hide FreeOk, TableSound, SlotsMapped, ConfigOk;
    OneUnitNext(s.blocks[b], 512);
  }

  lemma LastDraws(s: Ftl)
    requires ConfigOk(FILLING) && OnePoint(FILLING, s, 512) && Shape(FILLING, s)
    ensures DrawsForever(s)
  {
    hide Shape, ConfigOk, OnePoint, Due, WriteCore, GcNeeded, WeighsFull, Full, VictimsOk, Lightest, Taken, LegalDraws;
    var b := WriteDue(s);
    var t := WriteCore(FILLING, s, 0, [true], [0]).value;
    DueVictim(t, b);
    OnlyFull(t, b);
    forall weight, except, draws | WeighsFull(FILLING, Greedy, t.blocks, weight) && LegalDraws(weight, draws)
      ensures |Taken(weight, except, 2, draws)| < 2
    {
      OneFullBlock(FILLING, Greedy, t, 0, weight, except, draws);
    }
  }

  /** After the same 512 writes from the constructor, the collection of the next one does not end with
      the random policy. */
  lemma RandomNeverEnds()
    ensures ConfigOk(FILLING) && Construct(FILLING).Ok? && AllWellFormed(FILLING, Writes(512))
    ensures Run(FILLING, Construct(FILLING).value, Writes(512)).Ok?
    ensures DrawsForever(Run(FILLING, Construct(FILLING).value, Writes(512)).value)
  {
    hide Shape, OnePoint, LegalRun, Run, Construct, Writes, WellFormed, DrawsForever;
    ConfigFits();
    ConstructOnePoint(FILLING);
    var s := Construct(FILLING).value;
    EnoughFree(s);
    hide ConfigOk, GcNeeded;
    var t := OnePointWrites(FILLING, s, 512);
    OnePointShape(FILLING, t, 512);
    LastDraws(t);
  }

  lemma EnoughFree(s: Ftl)
    requires OnePoint(FILLING, s, 0)
    ensures !GcNeeded(FILLING, s)
  {
    hide Solo;
  }
}

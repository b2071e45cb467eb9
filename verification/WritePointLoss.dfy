/** A run from the constructor in which garbage collection takes a block that is a write point:
    the next write finds the write point gone and panics. */
module WritePointLoss {
  import opened Outcome
  import opened FlashBlock
  import opened FtlModel
  import opened FtlInvariant
  import opened FtlOperations
  import opened FtlRuns
  import opened FtlWritePoints
  import opened SoloWrites
  import opened VictimSelection
  import Q = RefreshQueues

  /** Four blocks of 512 one-unit pages, two write points, and a collection of one block (and two
      more after a write point was replaced) whenever less than half of the blocks are free. */
  const LOSING: Config := Config(4, 512, 1, 2, false, 0, 0.5, 1, 10,
                                 Q.QueueConfig(1, false, 1, 1, 256, (_, _, _, _) => false))

  /** After n writes of page 0 to the two write points in turn. */
  ghost predicate Written(s: Ftl, n: nat) {
    && Solo(LOSING, s) && s.last == [0, 1] && s.lastIndex == n % 2 && s.nFree == 2 && s.blocks.Keys == {0, 1}
    && s.blocks[0].next == [n / 2] && s.blocks[1].next == [(n + 1) / 2]
  }

  lemma ConfigFits()
    ensures ConfigOk(LOSING)
  {
  }

  lemma TakeFirst()
    ensures ConfigOk(LOSING)
    ensures var s := Blank(LOSING);
      var r := TakePoint(LOSING, s, 0);
      r == Ok(s.(last := [0, 0], blocks := map[0 := New(0, 512, 1, 0)], nFree := 3,
                 free := [New(1, 512, 1, 0), New(2, 512, 1, 0), New(3, 512, 1, 0)]))
  {
    var s := Blank(LOSING);
    var v := s.free;
    assert TakenIndex(LOSING, v, 0) == 0;
    assert v[..0] + v[1..] == [New(1, 512, 1, 0), New(2, 512, 1, 0), New(3, 512, 1, 0)];
    assert s.last[0 := 0] == [0, 0];
    hide New;
  }

  lemma TakeSecond(s: Ftl)
    requires ConfigOk(LOSING) && Shape(LOSING, s) && s.last == [0, 0] && s.blocks == map[0 := New(0, 512, 1, 0)]
    requires s.nFree == 3 && s.free == [New(1, 512, 1, 0), New(2, 512, 1, 0), New(3, 512, 1, 0)]
    ensures TakePoint(LOSING, s, 1) ==
      Ok(s.(last := [0, 1], blocks := map[0 := New(0, 512, 1, 0), 1 := New(1, 512, 1, 0)], nFree := 2,
            free := [New(2, 512, 1, 0), New(3, 512, 1, 0)]))
  {
    hide Shape;
    var v := s.free;
    assert TakenIndex(LOSING, v, 1) == 0;
    assert v[..0] + v[1..] == [New(2, 512, 1, 0), New(3, 512, 1, 0)];
    assert New(1, 512, 1, 0).(refreshed := 0) == New(1, 512, 1, 0);
    assert s.last[1 := 1] == [0, 1];
    hide New;
  }

  /** The constructor takes blocks 0 and 1. */
  lemma ConstructTwo()
    ensures ConfigOk(LOSING) && Construct(LOSING) ==
      Ok(Blank(LOSING).(last := [0, 1], blocks := map[0 := New(0, 512, 1, 0), 1 := New(1, 512, 1, 0)], nFree := 2,
                        free := [New(2, 512, 1, 0), New(3, 512, 1, 0)]))
  {
    hide Shape, ConfigOk, TakePoint, Blank, TakeWritePoints, New;
    TakeFirst();
    var s0 := Blank(LOSING);
    TakeUnfolded(LOSING, s0, 0);
    var s1 := TakePoint(LOSING, s0, 0).value;
    TakeSecond(s1);
    TakeUnfolded(LOSING, s1, 1);
    TakeUnfolded(LOSING, TakePoint(LOSING, s1, 1).value, 2);
  }

  lemma BlankFields()
    ensures ConfigOk(LOSING) && Blank(LOSING).table == map[] && Blank(LOSING).lastIndex == 0
  {
    hide New;
  }

  lemma ConstructWritten()
    ensures ConfigOk(LOSING) && Construct(LOSING).Ok? && Written(Construct(LOSING).value, 0)
  {
    hide Shape, ConfigOk, Inv, Construct, Lookup, Blank, New;
    ConstructTwo();
    BlankFields();
    ConstructCore(LOSING);
    NewNext(0);
    NewNext(1);
    assert Construct(LOSING).value.blocks.Keys == {0, 1};
  }

  lemma NewNext(b: nat)
    ensures New(b, 512, 1, 0).next == [0]
  {
  }

  lemma WrittenShape(s: Ftl, n: nat)
    requires Written(s, n)
    ensures Shape(LOSING, s)
  {
  }

  lemma WriteFits(s: Ftl, n: nat)
    requires Written(s, n) && n < 1024
    ensures var b := if n % 2 == 0 then 1 else 0;
      NextPoint(LOSING, s) == b && s.last[b] == b && s.blocks[b].next == [n / 2] && !GcNeeded(LOSING, s)
  {
    hide Solo;
  }

  lemma WrittenAgain(s: Ftl, t: Ftl, n: nat)
    requires ConfigOk(LOSING) && Written(s, n) && n < 1024 && Shape(LOSING, s)
    requires Overwritten(LOSING, s, t, if n % 2 == 0 then 1 else 0, n / 2)
    ensures Written(t, n + 1)
  {
    hide Solo, Shape, Q.SetPeriod;
  }

  lemma WriteNext(s: Ftl, n: nat) returns (t: Ftl)
    requires ConfigOk(LOSING) && Written(s, n) && n < 1024
    ensures Leads(LOSING, s, [Write0([])], t) && Written(t, n + 1)
  {
    WriteFits(s, n);
    WrittenShape(s, n);
    hide Inv, Step, Leads, Q.SetPeriod, Shape, Overwritten, GcNeeded, ConfigOk;
    var b := if n % 2 == 0 then 1 else 0;
    QuietWrite(LOSING, s, b, n / 2);
    t := Step(LOSING, s, Write0([])).value;
    hide Written;
    WrittenAgain(s, t, n);
  }

  lemma {:induction false} WritesLead(s: Ftl, n: nat) returns (t: Ftl)
    requires ConfigOk(LOSING) && Written(s, 0) && n <= 1024
    ensures Shape(LOSING, s) && Leads(LOSING, s, Writes(n), t) && Written(t, n)
  {
    hide Shape, Leads, Written, WellFormed;
    WrittenShape(s, 0);
    if n == 0 {
      t := s;
      LeadsNone(LOSING, s);
    } else {
      var r := WritesLead(s, n - 1);
      WrittenShape(r, n - 1);
      t := WriteNext(r, n - 1);
      LeadsJoin(LOSING, s, Writes(n - 1), r, [Write0([])], t);
    }
  }

  // ---------------------------------------------------------------------------------------
  // The collection that takes a write point, and the write after it

  /** The write that finds both blocks full: block b replaces write point 1, too few blocks are
      free, and the collection is due to take three blocks. */
  ghost predicate Due(s: Ftl, b: nat) {
    && Solo(LOSING, s) && s.table == map[0 := [Loc(b, 0)]] && b !in {0, 1} && s.blocks.Keys == {0, 1, b}
    && s.last == [0, b] && s.lastIndex == 1 && s.nFree == 1 && s.reclaimMore
    && s.blocks[0].next == [512] && s.blocks[1].next == [512] && s.blocks[b].next == [1]
  }

  lemma FullAtEnd(s: Ftl)
    requires Written(s, 1024)
    ensures Full(LOSING, s, 1) && NextPoint(LOSING, s) == 1 && s.last[1] == 1 && s.free != []
  {
    hide FreeOk, TableSound, SlotsMapped, ConfigOk;
    OneUnitNext(s.blocks[1], 512);
  }

  lemma WriteDue(s: Ftl) returns (b: nat)
    requires ConfigOk(LOSING) && Written(s, 1024) && Shape(LOSING, s)
    ensures var r := WriteCore(LOSING, s, 0, [true], [0]);
      r.Ok? && Due(r.value, b)
  {
    hide Shape, ConfigOk, WriteCore, Inv;
    FullAtEnd(s);
    b := ReplaceOnce(LOSING, s);
    assert [0, 1][1 := b] == [0, b];
  }

  lemma FullBlocks(s: Ftl, b: nat)
    requires Due(s, b)
    ensures Full(LOSING, s, 0) && Full(LOSING, s, 1) && !Full(LOSING, s, b) && s.free != []
  {
    hide FreeOk, TableSound, SlotsMapped, ConfigOk;
    OneUnitNext(s.blocks[0], 512);
    OneUnitNext(s.blocks[1], 512);
    OneUnitNext(s.blocks[b], 512);
  }

  /** The full blocks are 0 and 1, both without valid pages: every policy that takes the lightest
      of the full blocks takes both. */
  lemma DueVictims(s: Ftl, b: nat)
    requires Due(s, b)
    ensures GcNeeded(LOSING, s) && Lightest(LOSING, Greedy, s, [0, 1], LOSING.reclaimBlocks + LOSING.maxPerf)
    ensures forall v :: v in [0, 1] ==> Dead(s, v)
  {
    hide Solo, Full, Dead;
    FullBlocks(s, b);
    OthersDead(LOSING, s, b, 0, 0);
    OthersDead(LOSING, s, b, 0, 1);
    assert forall x :: Full(LOSING, s, x) ==> x in [0, 1] by {
      forall x | Full(LOSING, s, x) ensures x in [0, 1] {
        assert x in s.blocks by { InUse(s, x); }
      }
    }
  }

  lemma InUse(s: Ftl, x: nat)
    requires Full(LOSING, s, x)
    ensures x in s.blocks
  {
  }

  lemma ChosenSame(s: Ftl)
    requires ConfigOk(LOSING) && Shape(LOSING, s)
    ensures Shape(LOSING, Chosen(s))
    ensures VictimsOk(LOSING, s, [0, 1]) ==> VictimsOk(LOSING, Chosen(s), [0, 1])
    ensures forall b: nat :: Dead(s, b) ==> Dead(Chosen(s), b)
  {
    assert forall b: nat, p: nat, u: nat :: Live(Chosen(s), b, p, u) == Live(s, b, p, u);
  }

  /** The collection takes block 0, and with it write point 0. */
  lemma CollectDue(s: Ftl, b: nat)
    requires ConfigOk(LOSING) && Due(s, b) && Shape(LOSING, s)
    ensures VictimsOk(LOSING, s, [0, 1])
    ensures var r := CollectIfNeeded(LOSING, s, [0, 1]);
      r.Ok? && Solo(LOSING, r.value) && r.value.last == [0, b] && r.value.lastIndex == 1 && 0 !in r.value.blocks
  {
    hide Shape, ConfigOk, FreeOk, TableSound, SlotsMapped, GcNeeded, Full, Dead, Collect, SameLookup;
    DueVictims(s, b);
    FullBlocks(s, b);
    ChosenSame(s);
    FrameCore(LOSING, s, Chosen(s), {});
    DeadCollected(LOSING, Chosen(s), [0, 1]);
    assert 0 in [0, 1];
  }

  /** A write panics when the write point that is next is not in use. */
  lemma LostSolo(c: Config, s: Ftl)
    requires Solo(c, s) && s.last[NextPoint(c, s)] !in s.blocks
    ensures WriteCore(c, s, 0, [true], [0]) == Panic(WritePointLost)
  {
    hide Shape, ConfigOk, FreeOk, TableSound, SlotsMapped, PrepareWrite, WriteUnits, UsePoint, Rotate;
    PrepareSolo(c, s);
    LostPoint(c, PrepareWrite(c, s, 0, [true]).value);
  }

  lemma LostPoint(c: Config, s: Ftl)
    requires ConfigOk(c) && Shape(c, s) && !c.randomTweak && s.last[NextPoint(c, s)] !in s.blocks
    ensures GetLastFreeBlock(c, s, [true]) == Panic(WritePointLost)
  {
    hide Shape, ConfigOk;
  }

  /** The write in s needs a collection, and the greedy policy then chooses victims. */
  ghost predicate GreedyTakes(s: Ftl, victims: seq<nat>)
    requires ConfigOk(LOSING) && Shape(LOSING, s)
  {
    var r := WriteCore(LOSING, s, 0, [true], [0]);
    && r.Ok? && GcNeeded(LOSING, r.value) && r.value.reclaimMore
    && Lightest(LOSING, Greedy, r.value, victims, LOSING.reclaimBlocks + LOSING.maxPerf)
  }

  lemma GreedyTakesBoth(s: Ftl)
    requires ConfigOk(LOSING) && Written(s, 1024) && Shape(LOSING, s)
    ensures GreedyTakes(s, [0, 1])
  {
    hide Shape, ConfigOk, Written, Solo, WriteCore, GcNeeded, Lightest;
    var b := WriteDue(s);
    DueVictims(WriteCore(LOSING, s, 0, [true], [0]).value, b);
  }

  /** The run: 1024 writes of one page, a write whose collection takes the blocks 0 and 1, and
      another write. */
  function Losing(): seq<Op> {
    Writes(1024) + [Write0([0, 1]), Write0([])]
  }

  lemma LastTwo(s: Ftl)
    requires ConfigOk(LOSING) && Written(s, 1024) && Shape(LOSING, s)
    ensures AllWellFormed(LOSING, [Write0([0, 1]), Write0([])])
    ensures LegalRun(LOSING, s, [Write0([0, 1]), Write0([])])
    ensures Run(LOSING, s, [Write0([0, 1]), Write0([])]) == Panic(WritePointLost)
  {
    hide Shape, ConfigOk, Written, Due, Solo, WriteCore, CollectIfNeeded, GcNeeded, VictimsOk;
    var b := WriteDue(s);
    var t := WriteCore(LOSING, s, 0, [true], [0]).value;
    CollectDue(t, b);
    var r := CollectIfNeeded(LOSING, t, [0, 1]).value;
    LostSolo(LOSING, r);
    assert [true][0];
    assert Step(LOSING, s, Write0([0, 1])) == Ok(r);
    assert Step(LOSING, r, Write0([])) == Panic(WritePointLost);
    assert [Write0([0, 1]), Write0([])][1..] == [Write0([])];
    assert Run(LOSING, r, [Write0([])]) == Panic(WritePointLost);
    assert LegalRun(LOSING, r, [Write0([])]);
  }

  /** The counterexample: a legal run from the constructor, with the victims that the greedy policy
      chooses, after which the next write panics because its write point is gone. */
  lemma WritePointIsLost()
    ensures ConfigOk(LOSING) && Construct(LOSING).Ok? && AllWellFormed(LOSING, Losing())
    ensures LegalRun(LOSING, Construct(LOSING).value, Losing())
    ensures Run(LOSING, Construct(LOSING).value, Losing()) == Panic(WritePointLost)
    ensures forall op :: op in Writes(1024) ==> WellFormed(LOSING, op)
    ensures Run(LOSING, Construct(LOSING).value, Writes(1024)).Ok?
    ensures GreedyTakes(Run(LOSING, Construct(LOSING).value, Writes(1024)).value, [0, 1])
  {
    hide Shape, ConfigOk, Written, LegalRun, Run, Construct, Writes, WellFormed, GreedyTakes;
    ConstructWritten();
    var s := Construct(LOSING).value;
    var t := WritesLead(s, 1024);
    WrittenShape(t, 1024);
    LastTwo(t);
    GreedyTakesBoth(t);
    RunJoin(LOSING, s, Writes(1024), t, [Write0([0, 1]), Write0([])]);
  }
}

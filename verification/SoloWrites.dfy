/** Runs that overwrite one logical page on flash whose pages have a single unit.  They are
    followed exactly, so that the failures of the translation layer can be reached from its
    constructor. */
module SoloWrites {
  import opened Outcome
  import opened FlashBlock
  import opened FtlModel
  import opened FtlInvariant
  import opened FtlOperations
  import opened FtlRuns
  import Q = RefreshQueues

  // ---------------------------------------------------------------------------------------
  // Runs

  ghost predicate AllWellFormed(c: Config, ops: seq<Op>) {
    forall op :: op in ops ==> WellFormed(c, op)
  }

  /** ops is a legal run from s to t. */
  ghost predicate Leads(c: Config, s: Ftl, ops: seq<Op>, t: Ftl)
    requires ConfigOk(c) && Shape(c, s)
  {
    AllWellFormed(c, ops) && LegalRun(c, s, ops) && Run(c, s, ops) == Ok(t)
  }

  /** A legal run followed by one that stops with a panic, or ends. */
  lemma {:induction false} RunJoin(c: Config, s: Ftl, a: seq<Op>, t: Ftl, b: seq<Op>)
    requires ConfigOk(c) && Shape(c, s) && Leads(c, s, a, t) && AllWellFormed(c, b) && Shape(c, t)
    ensures AllWellFormed(c, a + b)
    ensures Run(c, s, a + b) == Run(c, t, b)
    ensures LegalRun(c, t, b) ==> LegalRun(c, s, a + b)
    decreases |a|
  {
    hide Shape, ConfigOk, WellFormed, Legal, Step;
    if a == [] {
      assert a + b == b;
    } else {
      assert (a + b)[0] == a[0] && (a + b)[1..] == a[1..] + b;
      RunJoin(c, Step(c, s, a[0]).value, a[1..], t, b);
    }
  }

  lemma LeadsJoin(c: Config, s: Ftl, a: seq<Op>, t: Ftl, b: seq<Op>, r: Ftl)
    requires ConfigOk(c) && Shape(c, s) && Leads(c, s, a, t) && Shape(c, t) && Leads(c, t, b, r)
    ensures Leads(c, s, a + b, r)
  {
    RunJoin(c, s, a, t, b);
  }

  lemma LeadsNone(c: Config, s: Ftl)
    requires ConfigOk(c) && Shape(c, s)
    ensures Leads(c, s, [], s)
  {
  }

  lemma LeadsOne(c: Config, s: Ftl, op: Op, t: Ftl)
    requires ConfigOk(c) && Shape(c, s) && WellFormed(c, op) && Legal(c, s, op) && Step(c, s, op) == Ok(t)
    ensures Leads(c, s, [op], t)
  {
    hide Shape, ConfigOk, WellFormed, Legal, Step;
    assert [op][0] == op && [op][1..] == [];
    assert Run(c, t, [op][1..]) == Ok(t) && LegalRun(c, t, [op][1..]);
  }

  // ---------------------------------------------------------------------------------------
  // One write

  /** A write of logical page 0; victims is what its collection would choose. */
  function Write0(victims: seq<nat>): Op {
    HostWrite(0, [true], [0], true, victims)
  }

  /** n writes that need no collection */
  function Writes(n: nat): seq<Op> {
    if n == 0 then [] else Writes(n - 1) + [Write0([])]
  }

  ghost predicate Solo(c: Config, s: Ftl) {
    !c.randomTweak && c.ioUnits == 1 && Inv(c, s) && s.table.Keys <= {0}
  }

  function NextPoint(c: Config, s: Ftl): nat {
    if s.lastIndex + 1 == c.maxPerf then 0 else s.lastIndex + 1
  }

  /** From s to t a write of page 0 programmed page p of block b, the write point that is next. */
  ghost predicate Overwritten(c: Config, s: Ftl, t: Ftl, b: nat, p: nat)
    requires ConfigOk(c) && Shape(c, s) && b < c.totalBlocks && b in s.blocks
  {
    && Solo(c, t) && t.table == map[0 := [Loc(b, p)]] && b in t.blocks && t.blocks[b].next == [p + 1]
    && t.last == s.last && t.lastIndex == NextPoint(c, s) && t.nFree == s.nFree && t.free == s.free
    && t.reclaimMore == s.reclaimMore && t.blocks.Keys == s.blocks.Keys
    && (forall x :: x in s.blocks ==>
      (x != b ==> t.blocks[x].next == s.blocks[x].next) && t.blocks[x].eraseCount == s.blocks[x].eraseCount)
    && t.queues == Q.SetPeriod(c.queues, s.queues, s.blocks[b].eraseCount, b, p % Q.LAYERS_PER_BLOCK)
  }

  /** Before the write point is taken, the old page is invalid and everything else as it was. */
  ghost predicate Prepared(c: Config, s: Ftl, t: Ftl) {
    && SamePoints(s, t) && t.queues == s.queues && t.table.Keys == {0}
    && (forall x :: x in s.blocks ==> t.blocks[x].next == s.blocks[x].next && t.blocks[x].eraseCount == s.blocks[x].eraseCount)
  }

  lemma ClearSolo(c: Config, s: Ftl)
    requires ConfigOk(c) && Shape(c, s) && !c.randomTweak && c.ioUnits == 1 && 0 in s.table
    requires ClearOld(c, s, 0, [true], 0).Ok?
    ensures var loc := s.table[0][0];
      ClearOld(c, s, 0, [true], 0).value ==
        if InRange(c, loc) && loc.block in s.blocks then KillUnit(c, s, loc.block, loc.page, 0) else s
  {
    var loc := s.table[0][0];
    hide Shape, ConfigOk, KillUnit;
    if InRange(c, loc) && loc.block in s.blocks {
      assert ClearOld(c, KillUnit(c, s, loc.block, loc.page, 0), 0, [true], 1).Ok?;
    } else {
      assert ClearOld(c, s, 0, [true], 1).Ok?;
    }
  }

  lemma PrepareSolo(c: Config, s: Ftl)
    requires Solo(c, s)
    ensures var r := PrepareWrite(c, s, 0, [true]);
      r.Ok? && Shape(c, r.value) && Prepared(c, s, r.value)
  {
    hide FreeOk, TableSound, SlotsMapped, SameOutside, Shape, ConfigOk, ClearOld, Selection;
    PrepareCore(c, s, 0, [true]);
    if 0 in s.table {
      assert s.table.Keys == {0};
      ClearSolo(c, s);
    }
  }

  lemma OneUnitNext(v: BlockView, pages: nat)
    requires BlockOk(v, pages, 1)
    ensures v.next == [v.next[0]] && NextPage(v) == v.next[0]
  {
    assert v.next[..0] == [];
  }

  /** The write point that is next is used when it is in use and not full. */
  lemma GetLastSolo(c: Config, s: Ftl, b: nat, p: nat)
    requires ConfigOk(c) && Shape(c, s) && !c.randomTweak && c.ioUnits == 1
    requires b == s.last[NextPoint(c, s)] && b in s.blocks && s.blocks[b].next == [p] && p < c.pagesInBlock
    ensures GetLastFreeBlock(c, s, [true]) == Ok((s.(lastIndex := NextPoint(c, s), ioMap := [true]), b))
  {
    assert BlockOk(s.blocks[b], c.pagesInBlock, 1);
    OneUnitNext(s.blocks[b], c.pagesInBlock);
    hide Shape, ConfigOk;
  }

  /** From s to t page p of block b was programmed with page 0. */
  ghost predicate Stamped(c: Config, s: Ftl, t: Ftl, b: nat, p: nat)
    requires ConfigOk(c) && Shape(c, s) && b < c.totalBlocks && b in s.blocks
  {
    && t.table == map[0 := [Loc(b, p)]] && SamePoints(s, t) && t.blocks[b].next == [p + 1]
    && t.blocks[b].eraseCount == s.blocks[b].eraseCount
    && (forall x :: x in s.blocks && x != b ==> t.blocks[x] == s.blocks[x])
    && t.queues == Q.SetPeriod(c.queues, s.queues, s.blocks[b].eraseCount, b, p % Q.LAYERS_PER_BLOCK)
  }

  lemma PlaceSolo(c: Config, s: Ftl, b: nat, p: nat)
    requires ConfigOk(c) && Shape(c, s) && !c.randomTweak && c.ioUnits == 1 && s.table.Keys == {0}
    requires b in s.blocks && s.blocks[b].next == [p] && p < c.pagesInBlock
    ensures b < c.totalBlocks
    ensures var r := PlaceUnit(c, s, 0, 0, b, 0);
      r.Ok? && Stamped(c, s, r.value, b, p)
  {
    hide Shape, ConfigOk, PlaceUnit, Write, Q.SetPeriod, Programmed, BlockOk;
    TableRow(c, s, 0);
    PlaceFields(c, s, 0, 0, b, 0);
    PlacedNext(c, s, b, p);
    PlacedQueues(c, s, 0, 0, b, 0);
    assert s.table[0][0 := Loc(b, p)] == [Loc(b, p)];
    assert s.table[0 := [Loc(b, p)]] == map[0 := [Loc(b, p)]];
  }

  lemma WriteSolo(c: Config, s: Ftl, b: nat, p: nat)
    requires ConfigOk(c) && Shape(c, s) && !c.randomTweak && c.ioUnits == 1 && s.table.Keys == {0}
    requires b in s.blocks && s.blocks[b].next == [p] && p < c.pagesInBlock
    ensures b < c.totalBlocks
    ensures var r := WriteUnits(c, s, 0, [true], [0], b, 0);
      r.Ok? && Stamped(c, s, r.value, b, p)
  {
    hide Shape, ConfigOk, PlaceUnit, Stamped;
    PlaceSolo(c, s, b, p);
    var r := PlaceUnit(c, s, 0, 0, b, 0);
    assert WriteUnits(c, r.value, 0, [true], [0], b, 1) == r;
  }

  lemma PlacedNext(c: Config, s: Ftl, b: nat, p: nat)
    requires ConfigOk(c) && Shape(c, s) && c.ioUnits == 1
    requires b in s.blocks && s.blocks[b].next == [p] && p < c.pagesInBlock
    ensures var w := Write(s.blocks[b], p, 0, 0, 0, c.pagesInBlock, 1);
      w.Ok? && w.value.next == [p + 1] && w.value.eraseCount == s.blocks[b].eraseCount
  {
    assert [p][0 := p + 1] == [p + 1];
  }

  lemma PlacedQueues(c: Config, s: Ftl, lpn: nat, u: nat, b: nat, d: nat)
    requires ConfigOk(c) && Shape(c, s) && b in s.blocks && lpn in s.table && u < Units(c)
    requires PlaceUnit(c, s, lpn, u, b, d).Ok?
    ensures b < c.totalBlocks && PlaceUnit(c, s, lpn, u, b, d).value.queues
      == Q.SetPeriod(c.queues, s.queues, s.blocks[b].eraseCount, b, s.blocks[b].next[u] % Q.LAYERS_PER_BLOCK)
  {
    hide Write, Q.SetPeriod;
  }

  /** A write of page 0 to a write point with room. */
  lemma OverwriteOnce(c: Config, s: Ftl, b: nat, p: nat)
    requires Solo(c, s) && b == s.last[NextPoint(c, s)] && b in s.blocks && s.blocks[b].next == [p] && p < c.pagesInBlock
    ensures b < c.totalBlocks
    ensures var r := WriteCore(c, s, 0, [true], [0]);
      r.Ok? && Overwritten(c, s, r.value, b, p)
  {
    hide Shape, ConfigOk, FreeOk, TableSound, SlotsMapped, PrepareWrite, GetLastFreeBlock, WriteUnits, Q.SetPeriod, Stored;
    PrepareSolo(c, s);
    WriteCoreCore(c, s, 0, [true], [0]);
    var s1 := PrepareWrite(c, s, 0, [true]).value;
    GetLastSolo(c, s1, b, p);
    var s2 := s1.(lastIndex := NextPoint(c, s), ioMap := [true]);
    WriteSolo(c, s2, b, p);
  }

  /** From s to t the write point that is next was full; free block b took its place and the write. */
  ghost predicate Replaced(c: Config, s: Ftl, t: Ftl, b: nat)
    requires ConfigOk(c) && Shape(c, s)
  {
    && Solo(c, t) && t.table == map[0 := [Loc(b, 0)]] && b !in s.blocks && t.blocks.Keys == s.blocks.Keys + {b}
    && t.blocks[b].next == [1] && t.last == s.last[NextPoint(c, s) := b] && t.lastIndex == NextPoint(c, s) && t.nFree == s.nFree - 1
    && t.reclaimMore
    && (forall x :: x in s.blocks ==> t.blocks[x].next == s.blocks[x].next && t.blocks[x].eraseCount == s.blocks[x].eraseCount)
  }

  lemma GetLastReplaced(c: Config, s: Ftl, hole: set<Unit>) returns (b: nat)
    requires Core(c, s, hole) && !c.randomTweak && c.ioUnits == 1 && s.free != []
    requires Full(c, s, s.last[NextPoint(c, s)])
    ensures var r := GetLastFreeBlock(c, s, [true]);
      && r.Ok? && r.value.1 == b && var t := r.value.0;
      && Shape(c, t) && b !in s.blocks && b in t.blocks && t.blocks[b].next == [0] && t.table == s.table
      && t.blocks == s.blocks[b := t.blocks[b]] && t.last == s.last[NextPoint(c, s) := b]
      && t.lastIndex == NextPoint(c, s) && t.nFree == s.nFree - 1 && t.reclaimMore
    ensures 0 < c.pagesInBlock
  {
    var s1 := Rotate(c, s, [true]);
    RotateCore(c, s, [true], hole);
    GetFreeCore(c, s1, s1.lastIndex, hole);
    var (t, taken) := GetFreeBlock(c, s1, s1.lastIndex).value;
    b := taken;
    assert BlockOk(t.blocks[b], c.pagesInBlock, 1);
    OneUnitNext(t.blocks[b], c.pagesInBlock);
    hide Core, Lookup, BlockOk;
  }

  lemma PreparedSolo(c: Config, s: Ftl) returns (t: Ftl)
    requires Solo(c, s) && Full(c, s, s.last[NextPoint(c, s)])
    ensures PrepareWrite(c, s, 0, [true]) == Ok(t) && Core(c, t, Selection(c, 0, [true], 0, 1)) && Prepared(c, s, t)
    ensures NextPoint(c, t) == NextPoint(c, s) && Full(c, t, t.last[NextPoint(c, t)])
  {
    hide Shape, ConfigOk, FreeOk, TableSound, SlotsMapped, PrepareWrite, Selection, SameOutside;
    PrepareSolo(c, s);
    PrepareCore(c, s, 0, [true]);
    t := PrepareWrite(c, s, 0, [true]).value;
  }

  lemma ReplaceOnce(c: Config, s: Ftl) returns (b: nat)
    requires Solo(c, s) && s.free != [] && Full(c, s, s.last[NextPoint(c, s)])
    ensures var r := WriteCore(c, s, 0, [true], [0]);
      r.Ok? && Replaced(c, s, r.value, b)
  {
    hide Shape, ConfigOk, FreeOk, TableSound, SlotsMapped, PrepareWrite, GetLastFreeBlock, WriteUnits, Q.SetPeriod, Stored,
         Selection, SameOutside;
    WriteCoreCore(c, s, 0, [true], [0]);
    var s1 := PreparedSolo(c, s);
    b := GetLastReplaced(c, s1, Selection(c, 0, [true], 0, 1));
    WriteSolo(c, GetLastFreeBlock(c, s1, [true]).value.0, b, 0);
  }

  /** Only the mapped page is valid. */
  lemma OthersDead(c: Config, s: Ftl, b: nat, p: nat, x: nat)
    requires Solo(c, s) && s.table == map[0 := [Loc(b, p)]] && x in s.blocks && x != b
    ensures Dead(s, x)
  {
  }

  // ---------------------------------------------------------------------------------------
  // One operation that needs no collection

  lemma QuietWrite(c: Config, s: Ftl, b: nat, p: nat)
    requires Solo(c, s) && b == s.last[NextPoint(c, s)] && b in s.blocks && s.blocks[b].next == [p] && p < c.pagesInBlock
    requires !GcNeeded(c, s)
    ensures b < c.totalBlocks
    ensures var r := Step(c, s, Write0([]));
      r.Ok? && Overwritten(c, s, r.value, b, p) && Leads(c, s, [Write0([])], r.value)
  {
    OverwriteOnce(c, s, b, p);
    var r := WriteCore(c, s, 0, [true], [0]);
    hide Shape, ConfigOk, WriteCore, Overwritten, Solo;
    assert r.value.nFree == s.nFree;
    assert Step(c, s, Write0([])) == r by { assert Any([true]) by { assert [true][0]; } }
    LeadsOne(c, s, Write0([]), r.value);
  }

  // ---------------------------------------------------------------------------------------
  // A single write point

  /** Block 0 is the only block in use and the only write point, and its first n pages are
      programmed. */
  ghost predicate OnePoint(c: Config, s: Ftl, n: nat) {
    && Solo(c, s) && c.maxPerf == 1 && s.last == [0] && s.lastIndex == 0 && s.nFree == c.totalBlocks - 1
    && s.blocks.Keys == {0} && s.blocks[0].next == [n] && s.blocks[0].eraseCount == c.initialErase
  }

  lemma OnePointShape(c: Config, s: Ftl, n: nat)
    requires OnePoint(c, s, n)
    ensures ConfigOk(c) && Shape(c, s) && NextPoint(c, s) == 0 && c.ioUnits == 1 && !c.randomTweak
  {
    hide FreeOk, TableSound, SlotsMapped;
  }

  lemma OnePointNext(c: Config, s: Ftl, t: Ftl, n: nat)
    requires ConfigOk(c) && Shape(c, s) && 0 in s.blocks && OnePoint(c, s, n) && Overwritten(c, s, t, 0, n)
    ensures OnePoint(c, t, n + 1)
  {
    hide Solo, Shape, ConfigOk, Q.SetPeriod;
  }

  lemma {:induction false} OnePointWrites(c: Config, s: Ftl, n: nat) returns (t: Ftl)
    requires OnePoint(c, s, 0) && n <= c.pagesInBlock && ConfigOk(c) && !GcNeeded(c, s)
    ensures Shape(c, s) && Leads(c, s, Writes(n), t) && OnePoint(c, t, n)
  {
    hide Shape, ConfigOk, Leads, Solo, Step, Overwritten, Inv;
    OnePointShape(c, s, 0);
    if n == 0 {
      t := s;
      LeadsNone(c, s);
    } else {
      var r := OnePointWrites(c, s, n - 1);
      OnePointShape(c, r, n - 1);
      QuietWrite(c, r, 0, n - 1);
      t := Step(c, r, Write0([])).value;
      OnePointNext(c, r, t, n - 1);
      LeadsJoin(c, s, Writes(n - 1), r, [Write0([])], t);
    }
  }

  lemma OnePointTaken(c: Config)
    requires ConfigOk(c) && c.maxPerf == 1 && c.ioUnits == 1
    ensures var r := TakePoint(c, Blank(c), 0);
      && r.Ok? && r.value.table == map[] && r.value.last == [0] && r.value.lastIndex == 0
      && r.value.nFree == c.totalBlocks - 1 && r.value.queues == Q.Init(c.queues)
      && r.value.blocks.Keys == {0} && r.value.blocks[0].next == [0] && r.value.blocks[0].eraseCount == c.initialErase
  {
    var s := Blank(c);
    assert TakenIndex(c, s.free, 0) == 0;
    assert s.last[0 := 0] == [0];
  }

  /** The constructor takes block 0. */
  lemma ConstructOnePoint(c: Config)
    requires ConfigOk(c) && c.maxPerf == 1 && c.ioUnits == 1 && !c.randomTweak
    ensures Construct(c).Ok? && OnePoint(c, Construct(c).value, 0) && Construct(c).value.queues == Q.Init(c.queues)
  {
    OnePointTaken(c);
    ConstructCore(c);
    hide Shape, Inv, ConfigOk, TakePoint, Lookup, Blank;
    TakeUnfolded(c, Blank(c), 0);
    TakeUnfolded(c, TakePoint(c, Blank(c), 0).value, 1);
  }
}

/** Trim, read, refresh and construction, and the refinement theorem: over every run the
    translation layer behaves like a plain map from (lpn, unit) to data. */
module FtlRuns {
  import opened Outcome
  import opened FlashBlock
  import opened FtlModel
  import opened FtlInvariant
  import opened FtlOperations
  import Q = RefreshQueues

  // ---------------------------------------------------------------------------------------
  // Trim and read

  /** The units of lpn below n. */
  ghost function Trimmed(lpn: nat, n: nat): set<Unit> {
    set w: nat | w < n :: (lpn, w)
  }

  lemma TrimmedStep(lpn: nat, u: nat)
    ensures Trimmed(lpn, u + 1) == Trimmed(lpn, u) + {(lpn, u)} && (lpn, u) !in Trimmed(lpn, u)
  {
  }

  lemma TrimOneCore(c: Config, s: Ftl, lpn: nat, u: nat)
    requires Core(c, s, Trimmed(lpn, u)) && lpn in s.table && u < Units(c)
    ensures var loc := s.table[lpn][u];
      if loc == Sentinel(c) then loc.block !in s.blocks
      else
        && loc.block in s.blocks && loc.page < c.pagesInBlock
        && var t := KillUnit(c, s, loc.block, loc.page, u);
        Core(c, t, Trimmed(lpn, u + 1)) && Updated(s, t, lpn, u, None) && t.table == s.table
  {
    TrimmedStep(lpn, u);
    MappedInRange(c, s, lpn, u, Trimmed(lpn, u));
    var loc := s.table[lpn][u];
    assert u < c.ioUnits && c.totalBlocks !in s.blocks;
    hide Shape, FreeOk, TableSound, SlotsMapped, Lookup, Live, Tag, KillUnit, ConfigOk, Trimmed;
    if loc != Sentinel(c) {
      KillCore(c, s, loc.block, loc.page, u, Trimmed(lpn, u));
      KillSlots(c, s, loc.block, loc.page, u);
    }
  }

  /** Some unit of lpn from u on is not mapped. */
  ghost predicate Unmapped(c: Config, s: Ftl, lpn: nat, u: nat) {
    lpn in s.table && exists w: nat :: u <= w < Units(c) && w < |s.table[lpn]| && s.table[lpn][w] == Sentinel(c)
  }

  lemma UnmappedStep(c: Config, s: Ftl, t: Ftl, lpn: nat, u: nat)
    requires lpn in s.table && u < Units(c) && u < |s.table[lpn]| && t.table == s.table
    ensures Unmapped(c, s, lpn, u) <==> s.table[lpn][u] == Sentinel(c) || Unmapped(c, t, lpn, u + 1)
  {
  }

  lemma {:induction false} TrimUnitsCore(c: Config, s: Ftl, lpn: nat, u: nat)
    requires Core(c, s, Trimmed(lpn, u)) && lpn in s.table && u <= Units(c)
    ensures var r := TrimUnits(c, s, lpn, u);
      && (r.Panic? <==> Unmapped(c, s, lpn, u))
      && (r.Panic? ==> r.why == UnmappedUnit)
      && (r.Ok? ==> Core(c, r.value, Trimmed(lpn, Units(c))) && SameOutside(s, r.value, Trimmed(lpn, Units(c))))
    decreases Units(c) - u
  {
    hide Shape, FreeOk, TableSound, SlotsMapped, Lookup, Live, Tag, KillUnit, ConfigOk, Trimmed, SameOutside, Updated,
         Unmapped, Units;
    TrimUnfolded(c, s, lpn, u);
    if u < Units(c) {
      TrimOneCore(c, s, lpn, u);
      UnmappedStep(c, s, s, lpn, u);
      var loc := s.table[lpn][u];
      if loc != Sentinel(c) {
        var t := KillUnit(c, s, loc.block, loc.page, u);
        UnmappedStep(c, s, t, lpn, u);
        TrimUnitsCore(c, t, lpn, u + 1);
        if TrimUnits(c, t, lpn, u + 1).Ok? {
          OutsideJoin(c, s, t, TrimUnits(c, t, lpn, u + 1).value, lpn, u, Trimmed(lpn, Units(c)));
        }
      }
    }
  }

  /** The definition of TrimUnits, unfolded once. */
  lemma TrimUnfolded(c: Config, s: Ftl, lpn: nat, u: nat)
    requires ConfigOk(c) && Shape(c, s) && lpn in s.table && u <= Units(c)
    ensures u == Units(c) ==> TrimUnits(c, s, lpn, u) == Ok(s) && SameOutside(s, s, Trimmed(lpn, Units(c)))
    ensures u == Units(c) ==> !Unmapped(c, s, lpn, u)
    ensures u < Units(c) ==> u < c.ioUnits && |s.table[lpn]| == Units(c) && (lpn, u) in Trimmed(lpn, Units(c))
    ensures u < Units(c) ==>
      var loc := s.table[lpn][u];
      TrimUnits(c, s, lpn, u) ==
        if loc.block !in s.blocks then Panic(UnmappedUnit)
        else if loc.page >= c.pagesInBlock then Panic(OutOfRange)
        else TrimUnits(c, KillUnit(c, s, loc.block, loc.page, u), lpn, u + 1)
  {
    hide KillUnit, Lookup;
  }

  /** t looks up nothing for lpn, and like s everywhere else. */
  ghost predicate Forgotten(s: Ftl, t: Ftl, lpn: nat) {
    forall m: nat, w: nat :: Lookup(t, m, w) == if m == lpn then None else Lookup(s, m, w)
  }

  function Dropped(s: Ftl, lpn: nat): Ftl {
    s.(table := s.table - {lpn})
  }

  lemma DropFrame(c: Config, s: Ftl, lpn: nat)
    requires ConfigOk(c) && Shape(c, s) && FreeOk(c, s) && lpn in s.table
    ensures Shape(c, Dropped(s, lpn)) && FreeOk(c, Dropped(s, lpn)) && |s.table[lpn]| == Units(c)
  {
    FreeFrame(c, s, Dropped(s, lpn));
    hide FreeOk;
  }

  lemma DropMapping(c: Config, s: Ftl, lpn: nat)
    requires TableSound(c, s, Trimmed(lpn, Units(c))) && SlotsMapped(s, Trimmed(lpn, Units(c)))
    requires lpn in s.table && |s.table[lpn]| == Units(c)
    ensures TableSound(c, Dropped(s, lpn), {}) && SlotsMapped(Dropped(s, lpn), {}) && Forgotten(s, Dropped(s, lpn), lpn)
  {
    assert SameSlots(s, Dropped(s, lpn));
    hide Live, Tag, Contents;
  }

  lemma DropEntryCore(c: Config, s: Ftl, lpn: nat)
    requires Core(c, s, Trimmed(lpn, Units(c))) && lpn in s.table
    ensures Inv(c, Dropped(s, lpn)) && Forgotten(s, Dropped(s, lpn), lpn)
  {
    hide Shape, FreeOk, ConfigOk, TableSound, SlotsMapped, Lookup, Units, Trimmed;
    DropFrame(c, s, lpn);
    DropMapping(c, s, lpn);
  }

  /** trimInternal panics exactly when the page has an entry with a unit that is not mapped;
      otherwise it unmaps the whole page. */
  lemma TrimCore(c: Config, s: Ftl, lpn: nat)
    requires Inv(c, s)
    ensures var r := Trim(c, s, lpn);
      && (r.Panic? <==> Unmapped(c, s, lpn, 0))
      && (r.Panic? ==> r.why == UnmappedUnit)
      && (r.Ok? ==> Inv(c, r.value) && Forgotten(s, r.value, lpn))
  {
    if lpn in s.table {
      assert Trimmed(lpn, 0) == {};
      assert forall w: nat :: Units(c) <= w ==> Lookup(s, lpn, w) == None;
      TrimUnitsCore(c, s, lpn, 0);
      if TrimUnits(c, s, lpn, 0).Ok? {
        DropEntryCore(c, TrimUnits(c, s, lpn, 0).value, lpn);
      }
    }
  }

  /** readInternal finds every mapped block in use, and fetches what the look-up finds. */
  lemma ReadUnitCore(c: Config, s: Ftl, lpn: nat, u: nat)
    requires Inv(c, s) && u < Units(c)
    ensures ReadUnit(c, s, lpn, u) == Ok(Lookup(s, lpn, u))
  {
    if lpn in s.table {
      MappedInRange(c, s, lpn, u, {});
      assert c.totalBlocks !in s.blocks;
      if InRange(c, s.table[lpn][u]) {
        LiveMapped(c, s, s.table[lpn][u].block, s.table[lpn][u].page, u);
        assert BlockOk(s.blocks[s.table[lpn][u].block], c.pagesInBlock, c.ioUnits);
      }
    }
  }

  // ---------------------------------------------------------------------------------------
  // Refresh

  lemma PopPreserved(c: Config, s: Ftl, num: nat)
    requires Inv(c, s) && num < c.queues.queueCount && s.queues.checked[num] != []
    requires Q.Pop(c.queues, s.queues, num).Ok?
    ensures Preserved(c, s, s.(queues := Q.Pop(c.queues, s.queues, num).value.q))
    ensures Q.LAYERS_PER_BLOCK < c.pagesInBlock
  {
    FrameCore(c, s, s.(queues := Q.Pop(c.queues, s.queues, num).value.q), {});
  }

  lemma RefreshLayerCore(c: Config, s: Ftl, num: nat)
    requires Inv(c, s) && num < c.queues.queueCount && s.queues.checked[num] != []
    ensures var r := RefreshLayer(c, s, num);
      && (r.Panic? ==> r.why in {WritePointLost, NoFreeBlock, LayerBitmapCorrupted})
      && (Q.Pop(c.queues, s.queues, num).Ok? && r.Panic? ==> r.why != LayerBitmapCorrupted)
      && (r.Ok? ==> Preserved(c, s, r.value))
  {
    if Q.Pop(c.queues, s.queues, num).Ok? {
      PopPreserved(c, s, num);
      hide Shape, FreeOk, TableSound, SlotsMapped, Lookup, ConfigOk, Q.Pop, Q.Shape, CopyPages, SameLookup;
      var p := Q.Pop(c.queues, s.queues, num).value;
      var s1 := s.(queues := p.q);
      var b, first := p.layer / Q.LAYERS_PER_BLOCK, p.layer % Q.LAYERS_PER_BLOCK;
      if p.refreshNow && b in s.blocks {
        CopyPagesCore(c, s1, b, first, Q.LAYERS_PER_BLOCK, true);
        if CopyPages(c, s1, b, first, Q.LAYERS_PER_BLOCK, true).Ok? {
          PreservedTrans(c, s, s1, CopyPages(c, s1, b, first, Q.LAYERS_PER_BLOCK, true).value);
        }
      }
    }
  }

  /** Refreshing up to n layers of a queue keeps the invariant and every look-up, even when pages
      are copied within their own block. */
  lemma {:induction false} DrainCore(c: Config, s: Ftl, num: nat, n: nat)
    requires Inv(c, s) && num < c.queues.queueCount
    ensures var r := Drain(c, s, num, n);
      && (r.Panic? ==> r.why in {WritePointLost, NoFreeBlock, LayerBitmapCorrupted})
      && (r.Ok? ==> Preserved(c, s, r.value))
    decreases n
  {
    assert |s.queues.checked| == c.queues.queueCount;
    if n > 0 && s.queues.checked[num] != [] {
      RefreshLayerCore(c, s, num);
      hide Shape, FreeOk, TableSound, SlotsMapped, Lookup, ConfigOk, RefreshLayer, SameLookup;
      if RefreshLayer(c, s, num).Ok? {
        var t := RefreshLayer(c, s, num).value;
        DrainCore(c, t, num, n - 1);
        if Drain(c, t, num, n - 1).Ok? {
          PreservedTrans(c, s, t, Drain(c, t, num, n - 1).value);
        }
      }
    }
  }

  /** The victims chosen by the two collections of a refresh event. */
  ghost predicate RefreshVictimsOk(c: Config, s: Ftl, before: seq<nat>, after: seq<nat>)
    requires ConfigOk(c) && Shape(c, s)
  {
    var num := Q.Target(c.queues, s.queues);
    var s1 := SwapQueues(c, s, num);
    var r1 := CollectIfNeeded(c, s1, before);
    && (GcNeeded(c, s1) ==> VictimsOk(c, s1, before))
    && (r1.Ok? ==>
      var r2 := Drain(c, r1.value, num, c.queues.maxLayers);
      r2.Ok? && GcNeeded(c, r2.value) ==> VictimsOk(c, r2.value, after))
  }

  /** A refresh event keeps the invariant and every look-up. */
  lemma RefreshCore(c: Config, s: Ftl, before: seq<nat>, after: seq<nat>)
    requires Inv(c, s) && RefreshVictimsOk(c, s, before, after)
    ensures var r := Refresh(c, s, before, after);
      && (r.Panic? ==> r.why in {WritePointLost, NoFreeBlock, EmptyFreeList, LayerBitmapCorrupted})
      && (r.Ok? ==> Preserved(c, s, r.value))
  {
    var num := Q.Target(c.queues, s.queues);
    var s1 := SwapQueues(c, s, num);
    FrameCore(c, s, s1, {});
    hide Shape, FreeOk, TableSound, SlotsMapped, Lookup, ConfigOk, SameLookup, GcNeeded, VictimsOk, CollectIfNeeded, Drain,
         SwapQueues, CountCall;
    CollectIfNeededCore(c, s1, before);
    if CollectIfNeeded(c, s1, before).Ok? {
      var s2 := CollectIfNeeded(c, s1, before).value;
      PreservedTrans(c, s, s1, s2);
      DrainCore(c, s2, num, c.queues.maxLayers);
      if Drain(c, s2, num, c.queues.maxLayers).Ok? {
        var s3 := Drain(c, s2, num, c.queues.maxLayers).value;
        PreservedTrans(c, s, s2, s3);
        CollectIfNeededCore(c, s3, after);
        if CollectIfNeeded(c, s3, after).Ok? {
          var s4 := CollectIfNeeded(c, s3, after).value;
          PreservedTrans(c, s, s3, s4);
          CountCallCore(c, s4);
          PreservedTrans(c, s, s4, CountCall(c, s4));
        }
      }
    }
  }

  lemma CountCallCore(c: Config, s: Ftl)
    requires Inv(c, s)
    ensures Preserved(c, s, CountCall(c, s))
  {
    FrameCore(c, s, CountCall(c, s), {});
  }

  // ---------------------------------------------------------------------------------------
  // Construction

  lemma BlankCore(c: Config)
    requires ConfigOk(c)
    ensures Inv(c, Blank(c)) && forall l: nat, u: nat :: Lookup(Blank(c), l, u) == None
  {
    var s := Blank(c);
    forall i, j | 0 <= i < j < |s.free| ensures Before(s.free[i], s.free[j]) {
    }
    forall b: nat ensures b in Indices(s.free) <==> b < c.totalBlocks {
      if b < c.totalBlocks {
        assert s.free[b] in s.free && s.free[b].idx == b;
      }
    }
  }

  lemma TakeOneCore(c: Config, s: Ftl, i: nat)
    requires Inv(c, s) && i < c.maxPerf
    ensures var r := TakePoint(c, s, i);
      && (r.Panic? <==> s.free == []) && (r.Panic? ==> r.why == NoFreeBlock)
      && (r.Ok? ==> Preserved(c, s, r.value) && |r.value.free| == |s.free| - 1)
  {
    GetFreeCore(c, s, i, {});
    if TakePoint(c, s, i).Ok? {
      var (s1, b) := GetFreeBlock(c, s, i).value;
      var t := TakePoint(c, s, i).value;
      hide Shape, FreeOk, TableSound, SlotsMapped, Lookup, ConfigOk, GetFreeBlock;
      FrameCore(c, s1, t, {});
      PreservedTrans(c, s, s1, t);
    }
  }

  lemma PreservedInv(c: Config, s: Ftl, t: Ftl)
    requires Preserved(c, s, t)
    ensures Inv(c, t)
  {
  }

  lemma TakeUnfolded(c: Config, s: Ftl, i: nat)
    requires ConfigOk(c) && Shape(c, s) && i <= c.maxPerf
    ensures TakeWritePoints(c, s, i) ==
      if i == c.maxPerf then Ok(s)
      else if TakePoint(c, s, i).Ok? then TakeWritePoints(c, TakePoint(c, s, i).value, i + 1)
      else Panic(TakePoint(c, s, i).why)
  {
    hide Shape, ConfigOk, TakePoint;
  }

  /** The constructor panics exactly when there are fewer blocks than write points. */
  lemma {:induction false} TakeWritePointsCore(c: Config, s: Ftl, i: nat)
    requires Inv(c, s) && i <= c.maxPerf
    ensures var r := TakeWritePoints(c, s, i);
      && (r.Panic? <==> |s.free| < c.maxPerf - i) && (r.Panic? ==> r.why == NoFreeBlock)
      && (r.Ok? ==> Preserved(c, s, r.value))
    decreases c.maxPerf - i
  {
    hide Shape, FreeOk, TableSound, SlotsMapped, SameLookup, ConfigOk, TakePoint, TakeWritePoints, Preserved;
    PreservedSelf(c, s);
    TakeUnfolded(c, s, i);
    if i < c.maxPerf {
      TakeOneCore(c, s, i);
      if TakePoint(c, s, i).Ok? {
        var t := TakePoint(c, s, i).value;
        PreservedInv(c, s, t);
        TakeWritePointsCore(c, t, i + 1);
        if TakeWritePoints(c, t, i + 1).Ok? {
          PreservedTrans(c, s, t, TakeWritePoints(c, t, i + 1).value);
        }
      }
    }
  }

  lemma ConstructCore(c: Config)
    requires ConfigOk(c)
    ensures var r := Construct(c);
      && (r.Panic? <==> c.totalBlocks < c.maxPerf) && (r.Panic? ==> r.why == NoFreeBlock)
      && (r.Ok? ==> Inv(c, r.value) && forall l: nat, u: nat :: Lookup(r.value, l, u) == None)
  {
    BlankCore(c);
    hide Inv, Lookup;
    TakeWritePointsCore(c, Blank(c), 0);
  }

  // ---------------------------------------------------------------------------------------
  // Runs

  datatype Op =
    | HostWrite(lpn: nat, flag: seq<bool>, data: seq<nat>, sendToPal: bool, victims: seq<nat>)
    | HostTrim(lpn: nat)
    | RefreshEvent(before: seq<nat>, after: seq<nat>)

  /** write, trim and the refresh event; a write without any unit is ignored */
  function Step(c: Config, s: Ftl, op: Op): (r: Result<Ftl>)
    requires ConfigOk(c) && Shape(c, s) && WellFormed(c, op)
    ensures r.Ok? ==> Shape(c, r.value)
  {
    match op
    case HostWrite(lpn, flag, data, sendToPal, victims) =>
      if Any(flag) then WriteInternal(c, s, lpn, flag, data, sendToPal, victims) else Ok(s)
    case HostTrim(lpn) => Trim(c, s, lpn)
    case RefreshEvent(before, after) => Refresh(c, s, before, after)
  }

  predicate WellFormed(c: Config, op: Op) {
    op.HostWrite? ==> FlagOk(c, op.flag) && |op.data| == Units(c)
  }

  /** The victims named in op are distinct, in use and full when they are selected. */
  ghost predicate Legal(c: Config, s: Ftl, op: Op)
    requires ConfigOk(c) && Shape(c, s) && WellFormed(c, op)
  {
    match op
    case HostWrite(lpn, flag, data, sendToPal, victims) =>
      var r := WriteCore(c, s, lpn, flag, data);
      r.Ok? && GcNeeded(c, r.value) ==> VictimsOk(c, r.value, victims)
    case HostTrim(_) => true
    case RefreshEvent(before, after) => RefreshVictimsOk(c, s, before, after)
  }

  function Run(c: Config, s: Ftl, ops: seq<Op>): (r: Result<Ftl>)
    requires ConfigOk(c) && Shape(c, s) && forall op :: op in ops ==> WellFormed(c, op)
    ensures r.Ok? ==> Shape(c, r.value)
    decreases |ops|
  {
    if ops == [] then Ok(s)
    else
      var t :- Step(c, s, ops[0]);
      Run(c, t, ops[1..])
  }

  ghost predicate LegalRun(c: Config, s: Ftl, ops: seq<Op>)
    requires ConfigOk(c) && Shape(c, s) && forall op :: op in ops ==> WellFormed(c, op)
    decreases |ops|
  {
    ops != [] ==>
      && Legal(c, s, ops[0])
      && (Step(c, s, ops[0]).Ok? ==> LegalRun(c, Step(c, s, ops[0]).value, ops[1..]))
  }

  /** The specification: a map from (lpn, unit) to data. */
  type Plain = map<Unit, nat>

  /** The selected units of a write with their data. */
  function Entries(c: Config, lpn: nat, flag: seq<bool>, data: seq<nat>): Plain
    requires FlagOk(c, flag) && |data| == Units(c)
  {
    map w: nat | w < Units(c) && Selected(c, flag, w) :: (lpn, w) := data[w]
  }

  function Apply(c: Config, m: Plain, op: Op): Plain
    requires WellFormed(c, op)
  {
    match op
    case HostWrite(lpn, flag, data, _, _) =>
      if Any(flag) then m + Entries(c, lpn, flag, data) else m
    case HostTrim(lpn) => map k | k in m && k.0 != lpn :: m[k]
    case RefreshEvent(_, _) => m
  }

  function ApplyAll(c: Config, m: Plain, ops: seq<Op>): Plain
    requires forall op :: op in ops ==> WellFormed(c, op)
    decreases |ops|
  {
    if ops == [] then m else ApplyAll(c, Apply(c, m, ops[0]), ops[1..])
  }

  ghost function Get(m: Plain, l: nat, u: nat): Option<nat> {
    if (l, u) in m then Some(m[(l, u)]) else None
  }

  ghost predicate Represents(s: Ftl, m: Plain) {
    forall l: nat, u: nat :: Lookup(s, l, u) == Get(m, l, u)
  }

  /** The panics that a run can meet.  "Write to non erased page", "Write to block should
      sequential", "Invalid mapping table entry", "There are valid pages in victim block", the
      look-ups of blocks that are not in use and the out-of-range accesses are not among them. */
  ghost predicate Possible(why: PanicKind) {
    why in {WritePointLost, NoFreeBlock, EmptyFreeList, GcWhileInitializing, UnmappedUnit, LayerBitmapCorrupted}
  }

  lemma StoredRefines(c: Config, s: Ftl, t: Ftl, op: Op, m: Plain)
    requires WellFormed(c, op) && op.HostWrite? && Any(op.flag) && Represents(s, m)
    requires Stored(c, s, t, op.lpn, op.flag, op.data, 0)
    ensures Represents(t, Apply(c, m, op))
  {
    hide Lookup, Any, FlagOk, Units, Selected;
    var stored := Entries(c, op.lpn, op.flag, op.data);
    forall l: nat, u: nat ensures Lookup(t, l, u) == Get(m + stored, l, u) {
      assert Lookup(s, l, u) == Get(m, l, u);
      assert (l, u) in stored <==> l == op.lpn && u < Units(c) && Selected(c, op.flag, u);
    }
  }

  lemma WriteRefines(c: Config, s: Ftl, op: Op, m: Plain)
    requires Inv(c, s) && WellFormed(c, op) && Legal(c, s, op) && Represents(s, m) && op.HostWrite? && Any(op.flag)
    ensures var r := Step(c, s, op);
      && (r.Panic? ==> Possible(r.why))
      && (r.Ok? ==> Inv(c, r.value) && Represents(r.value, Apply(c, m, op)))
  {
    WriteInternalCore(c, s, op.lpn, op.flag, op.data, op.sendToPal, op.victims);
    hide Represents, Stored, Apply, WriteInternal, TableSound, SlotsMapped, FreeOk, Shape, ConfigOk;
    if Step(c, s, op).Ok? {
      StoredRefines(c, s, Step(c, s, op).value, op, m);
    }
  }

  lemma ForgottenRefines(c: Config, s: Ftl, t: Ftl, lpn: nat, m: Plain)
    requires Represents(s, m) && Forgotten(s, t, lpn)
    ensures Represents(t, Apply(c, m, HostTrim(lpn)))
  {
    hide Lookup;
    forall l: nat, u: nat ensures Lookup(t, l, u) == Get(Apply(c, m, HostTrim(lpn)), l, u) {
      assert Lookup(s, l, u) == Get(m, l, u);
    }
  }

  lemma SameRefines(c: Config, s: Ftl, t: Ftl, before: seq<nat>, after: seq<nat>, m: Plain)
    requires Represents(s, m) && SameLookup(s, t)
    ensures Represents(t, Apply(c, m, RefreshEvent(before, after)))
  {
    hide Lookup;
  }

  lemma StepRefines(c: Config, s: Ftl, op: Op, m: Plain)
    requires Inv(c, s) && WellFormed(c, op) && Legal(c, s, op) && Represents(s, m)
    ensures var r := Step(c, s, op);
      && (r.Panic? ==> Possible(r.why))
      && (r.Ok? ==> Inv(c, r.value) && Represents(r.value, Apply(c, m, op)))
  {
    hide TableSound, SlotsMapped, FreeOk, Shape, ConfigOk, Represents, Forgotten, SameLookup, Trim, Refresh, WriteInternal,
         RefreshVictimsOk, VictimsOk;
    match op
    case HostWrite(_, _, _, _, _) =>
      if Any(op.flag) {
        WriteRefines(c, s, op, m);
      }
    case HostTrim(lpn) =>
      TrimCore(c, s, lpn);
      if Trim(c, s, lpn).Ok? {
        ForgottenRefines(c, s, Trim(c, s, lpn).value, lpn, m);
      }
    case RefreshEvent(before, after) =>
      RefreshCore(c, s, before, after);
      if Refresh(c, s, before, after).Ok? {
        SameRefines(c, s, Refresh(c, s, before, after).value, before, after, m);
      }
  }

  /** Every run keeps the invariant and does to look-ups what it does to a plain map; a run that
      stops, stops with one of six panics. */
  lemma {:induction false} RunRefines(c: Config, s: Ftl, ops: seq<Op>, m: Plain)
    requires Inv(c, s) && Represents(s, m)
    requires forall op :: op in ops ==> WellFormed(c, op)
    requires LegalRun(c, s, ops)
    ensures var r := Run(c, s, ops);
      && (r.Panic? ==> Possible(r.why))
      && (r.Ok? ==> Inv(c, r.value) && Represents(r.value, ApplyAll(c, m, ops)))
    decreases |ops|
  {
    hide TableSound, SlotsMapped, FreeOk, Shape, ConfigOk, Represents, Legal, Step, Apply, WellFormed;
    if ops != [] {
      StepRefines(c, s, ops[0], m);
      if Step(c, s, ops[0]).Ok? {
        RunRefines(c, Step(c, s, ops[0]).value, ops[1..], Apply(c, m, ops[0]));
      }
    }
  }

  /** The main theorem: after any run from the constructor, reading a unit gives the data of the
      latest write to it, and nothing exactly when it was never written or was trimmed since. */
  lemma ReadAfterRun(c: Config, ops: seq<Op>, lpn: nat, u: nat)
    requires ConfigOk(c) && u < Units(c) && forall op :: op in ops ==> WellFormed(c, op)
    requires Construct(c).Ok? && LegalRun(c, Construct(c).value, ops)
    requires Run(c, Construct(c).value, ops).Ok?
    ensures ReadUnit(c, Run(c, Construct(c).value, ops).value, lpn, u) == Ok(Get(ApplyAll(c, map[], ops), lpn, u))
  {
    ConstructCore(c);
    RunRefines(c, Construct(c).value, ops, map[]);
    ReadUnitCore(c, Run(c, Construct(c).value, ops).value, lpn, u);
  }
}

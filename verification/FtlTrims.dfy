/** When trimInternal panics, in terms of what the host has written: exactly when a page has been
    written in part since it was last trimmed. */
module FtlTrims {
  import opened Outcome
  import opened FlashBlock
  import opened FtlModel
  import opened FtlInvariant
  import opened FtlOperations
  import opened FtlRuns
  import opened FtlWritePoints
  import opened SoloWrites
  import Q = RefreshQueues

  /** Some unit of page l is mapped. */
  ghost predicate Touched(c: Config, s: Ftl, l: nat) {
    exists u: nat :: u < Units(c) && Lookup(s, l, u) != None
  }

  /** The table has no entry without mapped units. */
  ghost predicate Rooted(c: Config, s: Ftl) {
    forall l :: l in s.table ==> Touched(c, s, l)
  }

  lemma SameRooted(c: Config, s: Ftl, t: Ftl)
    requires Rooted(c, s) && SameLookup(s, t) && t.table.Keys == s.table.Keys
    ensures Rooted(c, t)
  {
    hide Lookup;
    forall l | l in t.table ensures Touched(c, t, l) {
      assert l in s.table && Touched(c, s, l);
      var u: nat :| u < Units(c) && Lookup(s, l, u) != None;
      assert Lookup(t, l, u) != None;
    }
  }

  lemma StoredRooted(c: Config, s: Ftl, t: Ftl, op: Op)
    requires ConfigOk(c) && WellFormed(c, op) && op.HostWrite? && Any(op.flag) && Rooted(c, s)
    requires Stored(c, s, t, op.lpn, op.flag, op.data, 0) && t.table.Keys == s.table.Keys + {op.lpn}
    ensures Rooted(c, t)
  {
    hide Lookup;
    forall l | l in t.table ensures Touched(c, t, l) {
      if l == op.lpn {
        var u: nat :| u < |op.flag| && op.flag[u];
        var w := if c.randomTweak then u else 0;
        assert Lookup(t, l, w) == Some(op.data[w]);
      } else {
        assert Touched(c, s, l);
        var u: nat :| u < Units(c) && Lookup(s, l, u) != None;
        assert Lookup(t, l, u) == Lookup(s, l, u);
      }
    }
  }

  lemma ForgottenRooted(c: Config, s: Ftl, t: Ftl, lpn: nat)
    requires Rooted(c, s) && Forgotten(s, t, lpn) && t.table.Keys == s.table.Keys - {lpn}
    ensures Rooted(c, t)
  {
    hide Lookup;
    forall l | l in t.table ensures Touched(c, t, l) {
      assert Touched(c, s, l);
      var u: nat :| u < Units(c) && Lookup(s, l, u) != None;
      assert Lookup(t, l, u) != None;
    }
  }

  lemma StepRooted(c: Config, s: Ftl, op: Op)
    requires Inv(c, s) && WellFormed(c, op) && Legal(c, s, op) && Rooted(c, s) && Step(c, s, op).Ok?
    ensures Rooted(c, Step(c, s, op).value)
  {
    hide TableSound, SlotsMapped, FreeOk, Shape, ConfigOk, Rooted, Forgotten, SameLookup, Trim, Refresh, WriteInternal,
         RefreshVictimsOk, VictimsOk, Stored;
    match op
    case HostWrite(lpn, flag, data, sendToPal, victims) =>
      if Any(flag) {
        WriteInternalCore(c, s, lpn, flag, data, sendToPal, victims);
        StoredRooted(c, s, WriteInternal(c, s, lpn, flag, data, sendToPal, victims).value, op);
      }
    case HostTrim(lpn) =>
      TrimCore(c, s, lpn);
      TrimKeys(c, s, lpn);
      ForgottenRooted(c, s, Trim(c, s, lpn).value, lpn);
    case RefreshEvent(before, after) =>
      RefreshCore(c, s, before, after);
      SameRooted(c, s, Refresh(c, s, before, after).value);
  }

  lemma TrimKeys(c: Config, s: Ftl, lpn: nat)
    requires ConfigOk(c) && Shape(c, s) && Trim(c, s, lpn).Ok?
    ensures Trim(c, s, lpn).value.table.Keys == s.table.Keys - {lpn}
  {
    hide Shape, ConfigOk, TrimUnits;
  }

  lemma {:induction false} RunRooted(c: Config, s: Ftl, ops: seq<Op>, m: Plain)
    requires Inv(c, s) && Rooted(c, s) && (forall op :: op in ops ==> WellFormed(c, op)) && LegalRun(c, s, ops)
    requires Represents(s, m) && Run(c, s, ops).Ok?
    ensures Rooted(c, Run(c, s, ops).value)
    decreases |ops|
  {
    hide TableSound, SlotsMapped, FreeOk, Shape, ConfigOk, Rooted, Legal, Step, WellFormed, Represents, Apply;
    if ops != [] {
      StepRooted(c, s, ops[0]);
      StepRefines(c, s, ops[0], m);
      RunRooted(c, Step(c, s, ops[0]).value, ops[1..], Apply(c, m, ops[0]));
    }
  }

  /** Some units of the page hold data, and some do not. */
  ghost predicate PartlyWritten(c: Config, m: Plain, lpn: nat) {
    exists u: nat, w: nat :: u < Units(c) && w < Units(c) && (lpn, u) in m && (lpn, w) !in m
  }

  lemma UnmappedPartly(c: Config, s: Ftl, m: Plain, lpn: nat)
    requires Inv(c, s) && Rooted(c, s) && Represents(s, m)
    ensures Unmapped(c, s, lpn, 0) <==> PartlyWritten(c, m, lpn)
  {
    hide FreeOk, SlotsMapped, ConfigOk, Shape, Rooted;
    assert forall u: nat :: (Lookup(s, lpn, u) != None <==> (lpn, u) in m) by {
      hide Lookup, TableSound;
      forall u: nat ensures Lookup(s, lpn, u) != None <==> (lpn, u) in m {
        assert Lookup(s, lpn, u) == Get(m, lpn, u);
      }
    }
    if lpn in s.table {
      TableRow(c, s, lpn);
      forall u: nat | u < Units(c) ensures s.table[lpn][u] == Sentinel(c) <==> Lookup(s, lpn, u) == None {
        SentinelNotHeld(c, s, lpn, u);
      }
      hide Lookup, TableSound;
      assert Touched(c, s, lpn) by { RootedAt(c, s, lpn); }
    }
  }

  lemma RootedAt(c: Config, s: Ftl, l: nat)
    requires Rooted(c, s) && l in s.table
    ensures Touched(c, s, l)
  {
  }

  lemma SentinelNotHeld(c: Config, s: Ftl, lpn: nat, u: nat)
    requires ConfigOk(c) && Shape(c, s)
    ensures !Holds(s, Sentinel(c), lpn, u)
  {
    assert c.totalBlocks !in s.blocks;
  }

  /** After any run from the constructor, the trim of a page panics exactly when the page is partly
      written: what the host has written since its last trim covers some of its units, but not all. */
  lemma TrimAfterRun(c: Config, ops: seq<Op>, lpn: nat)
    requires ConfigOk(c) && forall op :: op in ops ==> WellFormed(c, op)
    requires Construct(c).Ok? && LegalRun(c, Construct(c).value, ops)
    requires Run(c, Construct(c).value, ops).Ok?
    ensures var r := Trim(c, Run(c, Construct(c).value, ops).value, lpn);
      && (r.Panic? <==> PartlyWritten(c, ApplyAll(c, map[], ops), lpn))
      && (r.Panic? ==> r.why == UnmappedUnit)
  {
    hide TableSound, SlotsMapped, FreeOk, Shape, ConfigOk, Construct, Run, LegalRun, ApplyAll, WellFormed, Unmapped,
         PartlyWritten, Trim, Forgotten;
    ConstructCore(c);
    ConstructRooted(c);
    var s := Construct(c).value;
    RunRefines(c, s, ops, map[]);
    RunRooted(c, s, ops, map[]);
    TrimCore(c, Run(c, s, ops).value, lpn);
    UnmappedPartly(c, Run(c, s, ops).value, ApplyAll(c, map[], ops), lpn);
  }

  lemma ConstructRooted(c: Config)
    requires ConfigOk(c) && Construct(c).Ok?
    ensures Rooted(c, Construct(c).value) && Represents(Construct(c).value, map[])
  {
    ConstructCore(c);
    hide Shape, Lookup, Blank, Inv;
    BlankTable(c);
  }

  lemma BlankTable(c: Config)
    requires ConfigOk(c)
    ensures Blank(c).table == map[]
  {
  }

  // ---------------------------------------------------------------------------------------
  // An input

  /** Two blocks of pages with two units, which are mapped separately; no collections. */
  const HALVES: Config := Config(2, 512, 2, 1, true, 0, 0.0, 1, 10,
                                 Q.QueueConfig(1, false, 1, 1, 128, (_, _, _, _) => false))

  /** A write of the first unit of page 0 */
  function HalfWrite(d: nat): Op {
    HostWrite(0, [true, false], [d, 0], true, [])
  }

  lemma WriteWithFree(c: Config, s: Ftl, lpn: nat, flag: seq<bool>, data: seq<nat>)
    requires Inv(c, s) && FlagOk(c, flag) && |data| == Units(c) && !SomePointLost(s) && s.free != []
    ensures WriteCore(c, s, lpn, flag, data).Ok?
  {
    hide Shape, FreeOk, TableSound, SlotsMapped, Lookup, PrepareWrite, GetLastFreeBlock, WriteUnits, ConfigOk, Selection,
         Stored, SameOutside, Full, Units, FlagOk, Rotate, SomePointLost;
    PrepareCore(c, s, lpn, flag);
    var s1 := PrepareWrite(c, s, lpn, flag).value;
    GetLastPanics(c, s1, flag, Selection(c, lpn, flag, 0, Units(c)));
    PointsStay(s, s1);
    if GetLastFreeBlock(c, s1, flag).Ok? {
      WriteReadied(c, s, s1, lpn, flag, data);
    }
  }

  lemma PointsStay(s: Ftl, t: Ftl)
    requires SamePoints(s, t) && !SomePointLost(s)
    ensures !SomePointLost(t)
  {
    assert forall i :: 0 <= i < |t.last| ==> t.last[i] == s.last[i] && s.last[i] in s.blocks;
  }

  lemma HalvesReady()
    ensures ConfigOk(HALVES) && Construct(HALVES).Ok?
    ensures var s := Construct(HALVES).value;
      Inv(HALVES, s) && !SomePointLost(s) && s.free != [] && forall u: nat :: Lookup(s, 0, u) == None
  {
    assert ConfigOk(HALVES);
    var s := Blank(HALVES);
    BlankCore(HALVES);
    assert |s.free| == 2;
    ConstructCore(HALVES);
    ConstructPoints(HALVES);
    hide Shape, FreeOk, TableSound, SlotsMapped, Blank, TakePoint, ConfigOk, Lookup;
    TakeOneCore(HALVES, s, 0);
    TakeUnfolded(HALVES, s, 0);
    TakeUnfolded(HALVES, TakePoint(HALVES, s, 0).value, 1);
  }

  lemma HalfIsPart(d: nat)
    ensures WellFormed(HALVES, HalfWrite(d)) && PartlyWritten(HALVES, ApplyAll(HALVES, map[], [HalfWrite(d)]), 0)
  {
    var w := HalfWrite(d);
    assert Any(w.flag) by { assert w.flag[0]; }
    assert [w][1..] == [];
    assert ApplyAll(HALVES, map[], [w]) == Apply(HALVES, map[], w);
    assert (0, 0) in Entries(HALVES, 0, w.flag, w.data) && (0, 1) !in Entries(HALVES, 0, w.flag, w.data);
  }

  /** Writing half of a page and trimming it ends with "Block is not in use". */
  lemma HalfTrimPanics(d: nat)
    ensures ConfigOk(HALVES) && Construct(HALVES).Ok? && WellFormed(HALVES, HalfWrite(d))
    ensures LegalRun(HALVES, Construct(HALVES).value, [HalfWrite(d), HostTrim(0)])
    ensures Run(HALVES, Construct(HALVES).value, [HalfWrite(d), HostTrim(0)]) == Panic(UnmappedUnit)
  {
    hide Shape, Inv, ConfigOk, Construct, Lookup, WriteCore, Trim, SomePointLost, ApplyAll, PartlyWritten;
    HalvesReady();
    var s, w := Construct(HALVES).value, HalfWrite(d);
    WriteWithFree(HALVES, s, 0, w.flag, w.data);
    var t := WriteCore(HALVES, s, 0, w.flag, w.data).value;
    assert Any([true, false]) by { assert [true, false][0]; }
    HalfIsPart(d);
    LeadsOne(HALVES, s, w, t);
    TrimAfterRun(HALVES, [w], 0);
    assert Run(HALVES, t, [HostTrim(0)]) == Panic(UnmappedUnit) && LegalRun(HALVES, t, [HostTrim(0)]);
    RunJoin(HALVES, s, [w], t, [HostTrim(0)]);
    assert [w] + [HostTrim(0)] == [w, HostTrim(0)];
  }
}

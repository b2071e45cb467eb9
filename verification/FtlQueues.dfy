/** No flagged layer is lost: through every operation of the translation layer, a layer whose bit
    is set in the layer bitmap keeps a copy in one of the two queues of its recorded index. */
module FtlQueues {
  import opened Outcome
  import opened FlashBlock
  import opened FtlModel
  import opened FtlInvariant
  import opened FtlOperations
  import opened FtlRuns
  import Q = RefreshQueues

  // ---------------------------------------------------------------------------------------
  // Properties of the queues that scheduling keeps

  /** P holds for well-formed queues only, and is kept when a layer is scheduled. */
  ghost predicate Stable(c: Config, P: Q.Queues -> bool)
    requires ConfigOk(c)
  {
    forall q: Q.Queues, e: nat, b: nat, l: nat ::
      P(q) && Q.Shape(c.queues, q) && Q.LAYERS_PER_BLOCK * (b + 1) <= c.queues.layerSlots && l < Q.LAYERS_PER_BLOCK ==>
        P(Q.SetPeriod(c.queues, q, e, b, l))
  }

  ghost predicate Keeps(P: Q.Queues -> bool, r: Result<Ftl>) {
    r.Ok? ==> P(r.value.queues)
  }

  lemma PlaceKeeps(c: Config, P: Q.Queues -> bool, s: Ftl, lpn: nat, u: nat, b: nat, d: nat)
    requires ConfigOk(c) && Shape(c, s) && Stable(c, P) && P(s.queues) && b in s.blocks && lpn in s.table && u < Units(c)
    ensures Keeps(P, PlaceUnit(c, s, lpn, u, b, d))
  {
    UnitInRange(c, s, lpn, b, u);
    hide Shape, Q.SetPeriod, Q.Shape, Write, ConfigOk, BlockOk;
    var v := s.blocks[b];
    var q := Q.SetPeriod(c.queues, s.queues, v.eraseCount, b, v.next[u] % Q.LAYERS_PER_BLOCK);
    assert P(q);
  }

  lemma CopyUnitKeeps(c: Config, P: Q.Queues -> bool, s: Ftl, b: nat, page: nat, to: nat, lpn: nat, d: nat,
                      u: nat, refresh: bool)
    requires ConfigOk(c) && Shape(c, s) && Stable(c, P) && P(s.queues)
    requires b in s.blocks && to in s.blocks && page < c.pagesInBlock && u < Units(c)
    ensures Keeps(P, CopyUnit(c, s, b, page, to, lpn, d, u, refresh))
  {
    var s1 := Refreshed(c, KillUnit(c, s, b, page, u), b, refresh);
    assert s1.queues == s.queues;
    hide Shape, Q.Shape, Stable, ConfigOk, KillUnit, Refreshed, PlaceUnit;
    if lpn in s1.table {
      PlaceKeeps(c, P, s1, lpn, u, to, d);
    }
  }

  lemma {:induction false} CopyUnitsKeeps(c: Config, P: Q.Queues -> bool, s: Ftl, b: nat, page: nat, to: nat,
                                          lpns: seq<nat>, data: seq<nat>, bits: seq<bool>, refresh: bool, u: nat)
    requires ConfigOk(c) && Shape(c, s) && Stable(c, P) && P(s.queues)
    requires b in s.blocks && to in s.blocks && page < c.pagesInBlock
    requires |lpns| == |data| == |bits| == c.ioUnits
    ensures Keeps(P, CopyUnits(c, s, b, page, to, lpns, data, bits, refresh, u))
    decreases Units(c) - u
  {
    hide Shape, ConfigOk, CopyUnit, Stable, SamePoints;
    if u < Units(c) {
      UnitsBound(c);
      var t := s;
      if bits[u] {
        CopyUnitKeeps(c, P, s, b, page, to, lpns[u], data[u], u, refresh);
        if CopyUnit(c, s, b, page, to, lpns[u], data[u], u, refresh).Panic? {
          return;
        }
        t := CopyUnit(c, s, b, page, to, lpns[u], data[u], u, refresh).value;
        assert t.blocks.Keys == s.blocks.Keys by { SameKeys(s, t); }
      }
      CopyUnitsKeeps(c, P, t, b, page, to, lpns, data, bits, refresh, u + 1);
    }
  }

  lemma UnitsBound(c: Config)
    requires ConfigOk(c)
    ensures 0 < Units(c) <= c.ioUnits
  {
  }

  lemma SameKeys(s: Ftl, t: Ftl)
    requires SamePoints(s, t)
    ensures t.blocks.Keys == s.blocks.Keys
  {
  }

  lemma GetLastKeeps(c: Config, P: Q.Queues -> bool, s: Ftl, flag: seq<bool>)
    requires ConfigOk(c) && Shape(c, s) && FlagOk(c, flag) && Stable(c, P) && P(s.queues)
    ensures var r := GetLastFreeBlock(c, s, flag);
      r.Ok? ==> P(r.value.0.queues)
  {
    hide Shape, Q.Shape, Stable, ConfigOk, GetFreeBlock;
  }

  lemma CopyPageKeeps(c: Config, P: Q.Queues -> bool, s: Ftl, b: nat, page: nat, refresh: bool)
    requires ConfigOk(c) && Shape(c, s) && Stable(c, P) && P(s.queues) && b in s.blocks && page < c.pagesInBlock
    ensures Keeps(P, CopyPage(c, s, b, page, refresh))
  {
    var v := s.blocks[b];
    assert BlockOk(v, c.pagesInBlock, c.ioUnits);
    if Any(v.valid[page]) {
      var bits := CopyMask(c, v.valid[page]);
      assert FlagOk(c, bits) && |bits| == c.ioUnits;
      hide Shape, ConfigOk, GetLastFreeBlock, CopyUnits, Stable, BlockOk, CopyMask;
      GetLastKeeps(c, P, s, bits);
      if GetLastFreeBlock(c, s, bits).Ok? {
        var (t, to) := GetLastFreeBlock(c, s, bits).value;
        CopyUnitsKeeps(c, P, t, b, page, to, v.lpns[page], v.data[page], bits, refresh, 0);
      }
    }
  }

  lemma {:induction false} CopyPagesKeeps(c: Config, P: Q.Queues -> bool, s: Ftl, b: nat, page: nat, step: nat,
                                          refresh: bool)
    requires ConfigOk(c) && Shape(c, s) && Stable(c, P) && P(s.queues) && b in s.blocks && 0 < step
    ensures Keeps(P, CopyPages(c, s, b, page, step, refresh))
    decreases c.pagesInBlock - page
  {
    hide Shape, ConfigOk, CopyPage, Stable;
    if page < c.pagesInBlock {
      CopyPageKeeps(c, P, s, b, page, refresh);
      if CopyPage(c, s, b, page, refresh).Ok? {
        CopyPagesKeeps(c, P, CopyPage(c, s, b, page, refresh).value, b, page + step, step, refresh);
      }
    }
  }

  lemma {:induction false} CopyVictimsKeeps(c: Config, P: Q.Queues -> bool, s: Ftl, victims: seq<nat>, i: nat)
    requires ConfigOk(c) && Shape(c, s) && Stable(c, P) && P(s.queues)
    ensures Keeps(P, CopyVictims(c, s, victims, i))
    decreases |victims| - i
  {
    hide Shape, ConfigOk, CopyPages, Stable;
    if i < |victims| && victims[i] in s.blocks {
      CopyPagesKeeps(c, P, s, victims[i], 0, 1, false);
      if CopyPages(c, s, victims[i], 0, 1, false).Ok? {
        CopyVictimsKeeps(c, P, CopyPages(c, s, victims[i], 0, 1, false).value, victims, i + 1);
      }
    }
  }

  lemma CollectKeeps(c: Config, P: Q.Queues -> bool, s: Ftl, victims: seq<nat>)
    requires ConfigOk(c) && Shape(c, s) && Stable(c, P) && P(s.queues)
    ensures Keeps(P, CollectIfNeeded(c, s, victims))
  {
    if GcNeeded(c, s) {
      CopyVictimsKeeps(c, P, Chosen(s), victims, 0);
      hide Shape, Q.Shape, Stable, ConfigOk, CopyVictims, EraseVictims;
    }
  }

  lemma {:induction false} WriteUnitsKeeps(c: Config, P: Q.Queues -> bool, s: Ftl, lpn: nat, flag: seq<bool>,
                                           data: seq<nat>, b: nat, u: nat)
    requires ConfigOk(c) && Shape(c, s) && Stable(c, P) && P(s.queues) && lpn in s.table && b in s.blocks
    requires FlagOk(c, flag) && |data| == Units(c)
    ensures Keeps(P, WriteUnits(c, s, lpn, flag, data, b, u))
    decreases Units(c) - u
  {
    hide Shape, ConfigOk, PlaceUnit, Stable;
    if u < Units(c) {
      if Selected(c, flag, u) {
        PlaceKeeps(c, P, s, lpn, u, b, data[u]);
        if PlaceUnit(c, s, lpn, u, b, data[u]).Ok? {
          WriteUnitsKeeps(c, P, PlaceUnit(c, s, lpn, u, b, data[u]).value, lpn, flag, data, b, u + 1);
        }
      } else {
        WriteUnitsKeeps(c, P, s, lpn, flag, data, b, u + 1);
      }
    }
  }

  lemma WriteKeeps(c: Config, P: Q.Queues -> bool, s: Ftl, lpn: nat, flag: seq<bool>, data: seq<nat>,
                   sendToPal: bool, victims: seq<nat>)
    requires ConfigOk(c) && Shape(c, s) && Stable(c, P) && P(s.queues) && FlagOk(c, flag) && |data| == Units(c)
    ensures Keeps(P, WriteInternal(c, s, lpn, flag, data, sendToPal, victims))
  {
    hide Shape, Q.Shape, Stable, ConfigOk, PrepareWrite, GetLastFreeBlock, WriteUnits, CollectIfNeeded, GcNeeded,
         SamePoints, FlagOk;
    if PrepareWrite(c, s, lpn, flag).Ok? {
      var s1 := PrepareWrite(c, s, lpn, flag).value;
      GetLastKeeps(c, P, s1, flag);
      if GetLastFreeBlock(c, s1, flag).Ok? {
        var (s2, b) := GetLastFreeBlock(c, s1, flag).value;
        WriteUnitsKeeps(c, P, s2, lpn, flag, data, b, 0);
        if WriteUnits(c, s2, lpn, flag, data, b, 0).Ok? {
          CollectKeeps(c, P, WriteUnits(c, s2, lpn, flag, data, b, 0).value, victims);
        }
      }
    }
  }

  // ---------------------------------------------------------------------------------------
  // No flagged layer is lost

  ghost predicate Listed(c: Config, s: Ftl)
    requires ConfigOk(c) && Shape(c, s)
  {
    Q.NoneLost(c.queues, s.queues)
  }

  ghost function Kept(c: Config): Q.Queues -> bool {
    q => Q.Shape(c.queues, q) && Q.NoneLost(c.queues, q)
  }

  lemma KeptStable(c: Config)
    requires ConfigOk(c)
    ensures Stable(c, Kept(c))
  {
    hide Q.Shape, Q.NoneLost, Q.SetPeriod, ConfigOk;
    QueuesFit(c);
    forall q: Q.Queues, e: nat, b: nat, l: nat | Kept(c)(q) && Q.LAYERS_PER_BLOCK * (b + 1) <= c.queues.layerSlots
                                                && l < Q.LAYERS_PER_BLOCK
      ensures Kept(c)(Q.SetPeriod(c.queues, q, e, b, l))
    {
      Q.SetPeriodNoneLost(c.queues, q, e, b, l);
    }
  }

  lemma QueuesFit(c: Config)
    requires ConfigOk(c)
    ensures Q.ConfigOk(c.queues)
  {
  }

  /** r keeps every flagged layer. */
  ghost predicate KeepsLayers(c: Config, r: Result<Ftl>) {
    r.Ok? ==> ConfigOk(c) && Shape(c, r.value) && Listed(c, r.value)
  }

  lemma ListedKept(c: Config, s: Ftl)
    requires ConfigOk(c) && Shape(c, s)
    ensures Listed(c, s) <==> Kept(c)(s.queues)
  {
  }

  lemma CollectLayers(c: Config, s: Ftl, victims: seq<nat>)
    requires ConfigOk(c) && Shape(c, s) && Listed(c, s)
    ensures KeepsLayers(c, CollectIfNeeded(c, s, victims))
  {
    hide Shape, ConfigOk, Listed, Kept, CollectIfNeeded, Stable;
    KeptStable(c);
    ListedKept(c, s);
    CollectKeeps(c, Kept(c), s, victims);
    if CollectIfNeeded(c, s, victims).Ok? {
      ListedKept(c, CollectIfNeeded(c, s, victims).value);
    }
  }

  lemma WriteLayers(c: Config, s: Ftl, lpn: nat, flag: seq<bool>, data: seq<nat>, sendToPal: bool, victims: seq<nat>)
    requires ConfigOk(c) && Shape(c, s) && Listed(c, s) && FlagOk(c, flag) && |data| == Units(c)
    ensures KeepsLayers(c, WriteInternal(c, s, lpn, flag, data, sendToPal, victims))
  {
    hide Shape, ConfigOk, Listed, Kept, WriteInternal, Stable, FlagOk;
    KeptStable(c);
    ListedKept(c, s);
    WriteKeeps(c, Kept(c), s, lpn, flag, data, sendToPal, victims);
    if WriteInternal(c, s, lpn, flag, data, sendToPal, victims).Ok? {
      ListedKept(c, WriteInternal(c, s, lpn, flag, data, sendToPal, victims).value);
    }
  }

  lemma PoppedListed(c: Config, s: Ftl, num: nat)
    requires ConfigOk(c) && Shape(c, s) && Listed(c, s) && num < c.queues.queueCount && s.queues.checked[num] != []
    requires Q.Pop(c.queues, s.queues, num).Ok?
    ensures var s1 := s.(queues := Q.Pop(c.queues, s.queues, num).value.q);
      Shape(c, s1) && Listed(c, s1)
  {
    Q.PopNoneLost(c.queues, s.queues, num);
    hide ConfigOk, Q.Pop, Q.Shape;
  }

  lemma RefreshLayerLayers(c: Config, s: Ftl, num: nat)
    requires ConfigOk(c) && Shape(c, s) && Listed(c, s) && num < c.queues.queueCount && s.queues.checked[num] != []
    ensures KeepsLayers(c, RefreshLayer(c, s, num))
  {
    if Q.Pop(c.queues, s.queues, num).Ok? {
      PoppedListed(c, s, num);
      hide Shape, ConfigOk, Listed, Q.Pop, CopyPages, Kept, Stable;
      var p := Q.Pop(c.queues, s.queues, num).value;
      var s1 := s.(queues := p.q);
      var b, first := p.layer / Q.LAYERS_PER_BLOCK, p.layer % Q.LAYERS_PER_BLOCK;
      if p.refreshNow && b in s.blocks {
        KeptStable(c);
        ListedKept(c, s1);
        CopyPagesKeeps(c, Kept(c), s1, b, first, Q.LAYERS_PER_BLOCK, true);
        if CopyPages(c, s1, b, first, Q.LAYERS_PER_BLOCK, true).Ok? {
          ListedKept(c, CopyPages(c, s1, b, first, Q.LAYERS_PER_BLOCK, true).value);
        }
      }
    }
  }

  lemma {:induction false} DrainLayers(c: Config, s: Ftl, num: nat, n: nat)
    requires ConfigOk(c) && Shape(c, s) && Listed(c, s) && num < c.queues.queueCount
    ensures KeepsLayers(c, Drain(c, s, num, n))
    decreases n
  {
    assert |s.queues.checked| == c.queues.queueCount;
    hide Shape, ConfigOk, Listed, RefreshLayer;
    if n > 0 && s.queues.checked[num] != [] {
      RefreshLayerLayers(c, s, num);
      if RefreshLayer(c, s, num).Ok? {
        DrainLayers(c, RefreshLayer(c, s, num).value, num, n - 1);
      }
    }
  }

  lemma RefreshLayers(c: Config, s: Ftl, before: seq<nat>, after: seq<nat>)
    requires ConfigOk(c) && Shape(c, s) && Listed(c, s)
    ensures KeepsLayers(c, Refresh(c, s, before, after))
  {
    var num := Q.Target(c.queues, s.queues);
    Q.SwapNoneLost(c.queues, s.queues, num);
    var s1 := SwapQueues(c, s, num);
    assert Listed(c, s1);
    hide Shape, ConfigOk, Listed, SwapQueues, CollectIfNeeded, Drain, CountCall, Q.Target;
    CollectLayers(c, s1, before);
    if CollectIfNeeded(c, s1, before).Ok? {
      var s2 := CollectIfNeeded(c, s1, before).value;
      DrainLayers(c, s2, num, c.queues.maxLayers);
      if Drain(c, s2, num, c.queues.maxLayers).Ok? {
        var s3 := Drain(c, s2, num, c.queues.maxLayers).value;
        CollectLayers(c, s3, after);
        if CollectIfNeeded(c, s3, after).Ok? {
          CountCallLayers(c, CollectIfNeeded(c, s3, after).value);
        }
      }
    }
  }

  lemma CountCallLayers(c: Config, s: Ftl)
    requires ConfigOk(c) && Shape(c, s) && Listed(c, s)
    ensures Listed(c, CountCall(c, s))
  {
  }

  lemma TrimQueues(c: Config, s: Ftl, lpn: nat)
    requires ConfigOk(c) && Shape(c, s) && Trim(c, s, lpn).Ok?
    ensures Trim(c, s, lpn).value.queues == s.queues
  {
    hide Shape, ConfigOk, TrimUnits;
  }

  lemma TrimLayers(c: Config, s: Ftl, lpn: nat)
    requires ConfigOk(c) && Shape(c, s) && Listed(c, s)
    ensures KeepsLayers(c, Trim(c, s, lpn))
  {
    if Trim(c, s, lpn).Ok? {
      TrimQueues(c, s, lpn);
    }
    hide Shape, ConfigOk, Trim, Q.NoneLost;
  }

  lemma StepLayers(c: Config, s: Ftl, op: Op)
    requires ConfigOk(c) && Shape(c, s) && Listed(c, s) && WellFormed(c, op)
    ensures KeepsLayers(c, Step(c, s, op))
  {
    hide Shape, ConfigOk, Listed, WriteInternal, Refresh, Trim;
    match op
    case HostWrite(lpn, flag, data, sendToPal, victims) =>
      WriteLayers(c, s, lpn, flag, data, sendToPal, victims);
    case HostTrim(lpn) =>
      TrimLayers(c, s, lpn);
    case RefreshEvent(before, after) =>
      RefreshLayers(c, s, before, after);
  }

  /** Over every run, whatever the error model draws, no flagged layer is lost. */
  lemma {:induction false} RunKeepsLayers(c: Config, s: Ftl, ops: seq<Op>)
    requires ConfigOk(c) && Shape(c, s) && Listed(c, s) && forall op :: op in ops ==> WellFormed(c, op)
    ensures KeepsLayers(c, Run(c, s, ops))
    decreases |ops|
  {
    hide Shape, ConfigOk, Listed, Step, WellFormed;
    if ops != [] {
      StepLayers(c, s, ops[0]);
      if Step(c, s, ops[0]).Ok? {
        RunKeepsLayers(c, Step(c, s, ops[0]).value, ops[1..]);
      }
    }
  }

  /** After construction no layer is flagged. */
  lemma ConstructLayers(c: Config)
    requires ConfigOk(c) && Construct(c).Ok?
    ensures Shape(c, Construct(c).value) && Listed(c, Construct(c).value)
  {
    Q.InitNoneLost(c.queues);
    hide Shape, ConfigOk;
  }

  /** In every state that the translation layer reaches, each flagged layer has a copy in one of the
      two queues of its recorded index. */
  lemma NoLayerLost(c: Config, ops: seq<Op>)
    requires ConfigOk(c) && Construct(c).Ok? && forall op :: op in ops ==> WellFormed(c, op)
    ensures KeepsLayers(c, Run(c, Construct(c).value, ops))
  {
    ConstructLayers(c);
    RunKeepsLayers(c, Construct(c).value, ops);
  }
}

/** Class PageMapping of ftl/page_mapping.cc: the translation layer updated in place, step by step
    as the source does it.  Each method is proved equal to its function in FtlModel. */
module PageMapping {
  import opened Outcome
  import opened FlashBlock
  import opened FtlModel
  import opened FtlInvariant
  import opened FtlOperations
  import opened FtlRuns
  import opened VictimSelection
  import Q = RefreshQueues

  class PageMapping {
    const c: Config
    const policy: Policy

    var table: map<nat, seq<Loc>>
    var blocks: map<nat, BlockView>
    var freeBlocks: seq<BlockView>
    var nFreeBlocks: nat
    var lastFreeBlock: seq<nat>
    var lastFreeBlockIOMap: seq<bool>
    var lastFreeBlockIndex: nat
    var bReclaimMore: bool

    var insertedLayerCheck: seq<bool>
    var layerQueueNum: seq<nat>
    var refreshQueues: seq<seq<nat>>
    var checkedQueues: seq<seq<nat>>
    var refreshCallCount: nat
    var draws: nat            // values taken from the error model so far

    ghost var retired: set<nat>

    ghost function Queues(): Q.Queues
      reads this
    {
      Q.Queues(insertedLayerCheck, layerQueueNum, refreshQueues, checkedQueues, refreshCallCount, draws)
    }

    ghost function State(): Ftl
      reads this
    {
      Ftl(table, blocks, freeBlocks, nFreeBlocks, lastFreeBlock, lastFreeBlockIOMap, lastFreeBlockIndex, bReclaimMore,
          retired, Queues())
    }

    /** The sizes are consistent. */
    ghost predicate Ready()
      reads this
    {
      ConfigOk(c) && Shape(c, State())
    }

    /** The invariant of the translation layer holds as well. */
    ghost predicate Valid()
      reads this
    {
      Inv(c, State())
    }

    /** r and the state are the outcome of g. */
    ghost predicate Did(r: Result<()>, g: Result<Ftl>)
      reads this
    {
      r == g.Status() && (g.Ok? ==> State() == g.value)
    }

    /** r and the state are the outcome of g, which yields a block as well. */
    ghost predicate Yielded(r: Result<nat>, g: Result<(Ftl, nat)>)
      reads this
    {
      match g
      case Ok((t, b)) => r == Ok(b) && State() == t
      case Panic(why) => r == Panic(why)
    }

    lemma Sizes()
      requires Ready()
      ensures |lastFreeBlock| == c.maxPerf && lastFreeBlockIndex < c.maxPerf && 0 < c.maxPerf && nFreeBlocks == |freeBlocks|
      ensures c.randomTweak ==> |lastFreeBlockIOMap| == c.ioUnits
      ensures forall l :: l in table ==> |table[l]| == Units(c)
      ensures forall b :: b in blocks ==> BlockOk(blocks[b], c.pagesInBlock, c.ioUnits) && b < c.totalBlocks
      ensures 0 < Units(c) <= c.ioUnits
      ensures Q.LAYERS_PER_BLOCK * c.totalBlocks <= c.queues.layerSlots
      ensures QueuesOk()
    {
    }

    // ---------------------------------------------------------------------------------------
    // The refresh queues

    ghost predicate QueuesOk()
      reads this
    {
      Q.ConfigOk(c.queues) && Q.Shape(c.queues, Queues())
    }

    /** removeFromQueue; nothing happens when the queue has no copy of the layer */
    method RemoveFromQueue(layer: nat)
      requires QueuesOk() && layer < c.queues.layerSlots
      modifies this`refreshQueues
      ensures QueuesOk() && Queues() == Q.Remove(c.queues, old(Queues()), layer)
    {
      var at := layerQueueNum[layer];
      var queue := refreshQueues[at];
      var k := 0;
      while k < |queue| && queue[k] != layer
        invariant k <= |queue| && layer !in queue[..k]
      {
        k := k + 1;
      }
      if k < |queue| {
        Q.RemoveFirstAt(queue, layer, k);
        refreshQueues := refreshQueues[at := queue[..k] + queue[k + 1..]];
      } else {
        assert queue[..k] == queue;
        Q.RemoveAbsent(queue, layer);
        assert refreshQueues[at := queue] == refreshQueues;
      }
      assert Queues() == Q.Remove(c.queues, old(Queues()), layer);
    }

    method PushBack(layer: nat, target: nat)
      requires QueuesOk() && layer < c.queues.layerSlots && target < c.queues.queueCount
      modifies this`refreshQueues, this`layerQueueNum
      ensures QueuesOk() && Queues() == Q.PushBack(c.queues, old(Queues()), layer, target)
    {
      refreshQueues := refreshQueues[target := refreshQueues[target] + [layer]];
      layerQueueNum := layerQueueNum[layer := target];
      assert Queues() == Q.PushBack(c.queues, old(Queues()), layer, target);
    }

    /** insertToQueue */
    method InsertToQueue(queueNum: nat, layer: nat)
      requires QueuesOk() && layer < c.queues.layerSlots
      modifies this`refreshQueues, this`layerQueueNum, this`insertedLayerCheck
      ensures QueuesOk() && Queues() == Q.Insert(c.queues, old(Queues()), queueNum, layer)
    {
      hide Q.Remove, Q.PushBack;
      var current := refreshCallCount % c.queues.queueCount;
      var target := queueNum % c.queues.queueCount;
      if !insertedLayerCheck[layer] {
        PushBack(layer, target);
        insertedLayerCheck := insertedLayerCheck[layer := true];
      } else {
        var newQueue, oldQueue := target, layerQueueNum[layer];
        if newQueue <= current {
          newQueue := newQueue + c.queues.queueCount;
        }
        if oldQueue <= current {
          oldQueue := oldQueue + c.queues.queueCount;
        }
        if (newQueue - oldQueue) % Q.UINT32 > 24 {
          RemoveFromQueue(layer);
          PushBack(layer, target);
        }
      }
      assert Queues() == Q.Insert(c.queues, old(Queues()), queueNum, layer);
    }

    /** The loop of setRefreshPeriod over the periods, drawing one value of the error model each. */
    method FirstExceeding(eraseCount: nat, layer: nat) returns (i: nat)
      requires QueuesOk()
      modifies this`draws
      ensures QueuesOk()
      ensures (i, draws) == Q.FirstExceeding(c.queues, old(draws), 1, eraseCount, layer)
    {
      i := 1;
      while i < c.queues.queueCount
        invariant 1 <= i
        invariant Q.FirstExceeding(c.queues, draws, i, eraseCount, layer) ==
                  Q.FirstExceeding(c.queues, old(draws), 1, eraseCount, layer)
      {
        draws := draws + 1;
        if c.queues.exceeds(draws - 1, i, eraseCount, layer) {
          return;
        }
        i := i + 1;
      }
    }

    /** setRefreshPeriod in grouping modes 0 and 1 */
    method SetRefreshPeriod(eraseCount: nat, block: nat, layer: nat)
      requires QueuesOk() && Q.LAYERS_PER_BLOCK * (block + 1) <= c.queues.layerSlots && layer < Q.LAYERS_PER_BLOCK
      modifies this`refreshQueues, this`layerQueueNum, this`insertedLayerCheck, this`draws
      ensures QueuesOk() && Queues() == Q.SetPeriod(c.queues, old(Queues()), eraseCount, block, layer)
    {
      hide Q.Shape, Q.Insert;
      var current := refreshCallCount % c.queues.queueCount;
      if !c.queues.grouped {
        var i := FirstExceeding(eraseCount, layer);
        InsertToQueue(if i == c.queues.queueCount then current else current + i, block * Q.LAYERS_PER_BLOCK + layer);
      } else {
        var first := Q.GroupFirst(c.queues, layer);
        if layer == first {
          var i := FirstExceeding(eraseCount, Q.GroupLast(c.queues, first));
          var num := if i == c.queues.queueCount then current else (current + i) % c.queues.queueCount;
          ghost var start := Queues();
          var k := 0;
          while k < c.queues.groupSize && first + k < Q.LAYERS_PER_BLOCK
            invariant QueuesOk()
            invariant Q.InsertGroup(c.queues, Queues(), num, block, first, k) ==
                      Q.InsertGroup(c.queues, start, num, block, first, 0)
            decreases c.queues.groupSize - k
          {
            InsertToQueue(num, block * Q.LAYERS_PER_BLOCK + first + k);
            k := k + 1;
          }
        }
      }
    }

    // ---------------------------------------------------------------------------------------
    // Free blocks and write points

    /** The first free block of the residue class idx, or the first of all. */
    method FindFreeBlock(idx: nat) returns (k: nat)
      requires 0 < c.maxPerf && freeBlocks != []
      ensures k == TakenIndex(c, freeBlocks, idx)
    {
      k := 0;
      while k < |freeBlocks| && freeBlocks[k].idx % c.maxPerf != idx
        invariant k <= |freeBlocks|
        invariant FindResidue(freeBlocks, idx, c.maxPerf, 0) == FindResidue(freeBlocks, idx, c.maxPerf, k)
      {
        k := k + 1;
      }
      if k == |freeBlocks| {
        k := 0;
      }
    }

    /** getFreeBlock */
    method GetFreeBlock(idx: nat) returns (r: Result<nat>)
      requires Ready()
      modifies this`blocks, this`freeBlocks, this`nFreeBlocks
      ensures Yielded(r, FtlModel.GetFreeBlock(c, old(State()), idx))
    {
      hide Shape, ConfigOk, BlockOk, TakenIndex;
      Sizes();
      if idx >= c.maxPerf {
        return Panic(OutOfRange);
      }
      if nFreeBlocks == 0 {
        return Panic(NoFreeBlock);
      }
      var k := FindFreeBlock(idx);
      var block := freeBlocks[k];
      if block.idx in blocks {
        return Panic(AlreadyInUse);
      }
      blocks := blocks[block.idx := block.(refreshed := 0)];
      freeBlocks := freeBlocks[..k] + freeBlocks[k + 1..];
      nFreeBlocks := nFreeBlocks - 1;
      return Ok(block.idx);
    }

    /** getLastFreeBlock: move to the next write point, or stay. */
    method TurnWritePoint(flag: seq<bool>)
      requires Ready() && FlagOk(c, flag)
      modifies this`lastFreeBlockIndex, this`lastFreeBlockIOMap
      ensures Ready() && State() == Rotate(c, old(State()), flag)
    {
      hide Shape, ConfigOk, BlockOk;
      Sizes();
      if !c.randomTweak || Overlap(lastFreeBlockIOMap, flag) {
        lastFreeBlockIndex := lastFreeBlockIndex + 1;
        if lastFreeBlockIndex == c.maxPerf {
          lastFreeBlockIndex := 0;
        }
        lastFreeBlockIOMap := flag;
      } else {
        lastFreeBlockIOMap := Union(lastFreeBlockIOMap, flag);
      }
      assert State() == Rotate(c, old(State()), flag);
    }

    /** getLastFreeBlock: replace the write point if it is full. */
    method UseWritePoint() returns (r: Result<nat>)
      requires Ready()
      modifies this`blocks, this`freeBlocks, this`nFreeBlocks, this`lastFreeBlock, this`bReclaimMore
      ensures Yielded(r, UsePoint(c, old(State())))
    {
      hide Shape, ConfigOk, BlockOk;
      Sizes();
      var freeBlock := lastFreeBlock[lastFreeBlockIndex];
      if freeBlock !in blocks {
        return Panic(WritePointLost);
      }
      if NextPage(blocks[freeBlock]) == c.pagesInBlock {
        var taken :- GetFreeBlock(lastFreeBlockIndex);
        lastFreeBlock := lastFreeBlock[lastFreeBlockIndex := taken];
        bReclaimMore := true;
        return Ok(taken);
      }
      return Ok(freeBlock);
    }

    /** getLastFreeBlock */
    method GetLastFreeBlock(flag: seq<bool>) returns (r: Result<nat>)
      requires Ready() && FlagOk(c, flag)
      modifies this`blocks, this`freeBlocks, this`nFreeBlocks, this`lastFreeBlock, this`lastFreeBlockIOMap
      modifies this`lastFreeBlockIndex, this`bReclaimMore
      ensures Yielded(r, FtlModel.GetLastFreeBlock(c, old(State()), flag))
    {
      TurnWritePoint(flag);
      r := UseWritePoint();
    }

    // ---------------------------------------------------------------------------------------
    // One I/O unit

    method KillUnit(b: nat, page: nat, u: nat)
      requires Ready() && b in blocks && page < c.pagesInBlock && u < c.ioUnits
      modifies this`blocks
      ensures Ready() && State() == FtlModel.KillUnit(c, old(State()), b, page, u)
    {
      assert BlockOk(blocks[b], c.pagesInBlock, c.ioUnits);
      blocks := blocks[b := Invalidate(blocks[b], page, u, c.pagesInBlock, c.ioUnits)];
      assert State() == FtlModel.KillUnit(c, old(State()), b, page, u);
    }

    /** Program the next slot of unit u in block b, map it, and schedule the refresh of its layer. */
    method PlaceUnit(lpn: nat, u: nat, b: nat, d: nat) returns (r: Result<()>)
      requires Ready() && b in blocks && lpn in table && u < Units(c)
      modifies this`blocks, this`table, this`refreshQueues, this`layerQueueNum, this`insertedLayerCheck, this`draws
      ensures Did(r, FtlModel.PlaceUnit(c, old(State()), lpn, u, b, d))
    {
      hide Shape, ConfigOk, BlockOk, Q.Shape, Q.SetPeriod, Write, QueuesOk;
      UnitInRange(c, State(), lpn, b, u);
      QueuesReady();
      ghost var s0 := State();
      var v := blocks[b];
      var page := v.next[u];
      var written :- Write(v, page, lpn, u, d, c.pagesInBlock, c.ioUnits);
      MapUnit(lpn, u, b, page, written);
      assert State() == s0.(blocks := s0.blocks[b := written],
                            table := s0.table[lpn := s0.table[lpn][u := Loc(b, page)]]) && QueuesOk();
      SetRefreshPeriod(v.eraseCount, b, page % Q.LAYERS_PER_BLOCK);
      r := Ok(());
    }

    lemma UnitsPositive()
      requires ConfigOk(c)
      ensures 0 < Units(c) <= c.ioUnits
    {
    }

    lemma QueuesReady()
      requires Ready()
      ensures QueuesOk()
    {
    }

    method MapUnit(lpn: nat, u: nat, b: nat, page: nat, written: BlockView)
      requires lpn in table && u < |table[lpn]|
      modifies this`blocks, this`table
      ensures State() == old(State()).(blocks := old(blocks)[b := written],
                                       table := old(table)[lpn := old(table)[lpn][u := Loc(b, page)]])
      ensures old(QueuesOk()) ==> QueuesOk()
    {
      hide Q.Shape;
      blocks := blocks[b := written];
      table := table[lpn := table[lpn][u := Loc(b, page)]];
    }

    // ---------------------------------------------------------------------------------------
    // writeInternal

    method ClearOld(lpn: nat, flag: seq<bool>) returns (r: Result<()>)
      requires Ready() && lpn in table && FlagOk(c, flag)
      modifies this`blocks
      ensures Did(r, FtlModel.ClearOld(c, old(State()), lpn, flag, 0))
    {
      hide Shape, ConfigOk, FtlModel.ClearOld;
      ghost var goal := FtlModel.ClearOld(c, State(), lpn, flag, 0);
      for u := 0 to Units(c)
        invariant Ready()
        invariant FtlModel.ClearOld(c, State(), lpn, flag, u) == goal
      {
        r := ClearUnit(lpn, flag, u);
        if r.Panic? {
          return;
        }
      }
      ClearUnfolded(c, State(), lpn, flag, Units(c));
      return Ok(());
    }

    /** One pass of the loop that invalidates the old units. */
    method ClearUnit(lpn: nat, flag: seq<bool>, u: nat) returns (r: Result<()>)
      requires Ready() && lpn in table && FlagOk(c, flag) && u < Units(c)
      modifies this`blocks
      ensures Ready() && FtlModel.ClearOld(c, old(State()), lpn, flag, u)
        == if r.Ok? then FtlModel.ClearOld(c, State(), lpn, flag, u + 1) else Panic(r.why)
    {
      hide Shape, ConfigOk, BlockOk, FtlModel.KillUnit, FtlModel.ClearOld;
      Sizes();
      ClearUnfolded(c, State(), lpn, flag, u);
      var loc := table[lpn][u];
      if Selected(c, flag, u) && InRange(c, loc) {
        if loc.block !in blocks {
          return Panic(NoSuchBlock);
        }
        KillUnit(loc.block, loc.page, u);
      }
      return Ok(());
    }

    method WriteUnits(lpn: nat, flag: seq<bool>, data: seq<nat>, b: nat) returns (r: Result<()>)
      requires Ready() && lpn in table && b in blocks && FlagOk(c, flag) && |data| == Units(c)
      modifies this`blocks, this`table, this`refreshQueues, this`layerQueueNum, this`insertedLayerCheck, this`draws
      ensures Did(r, FtlModel.WriteUnits(c, old(State()), lpn, flag, data, b, 0))
    {
      hide Shape, ConfigOk, FtlModel.PlaceUnit;
      ghost var goal := FtlModel.WriteUnits(c, State(), lpn, flag, data, b, 0);
      for u := 0 to Units(c)
        invariant Ready() && lpn in table && b in blocks
        invariant FtlModel.WriteUnits(c, State(), lpn, flag, data, b, u) == goal
      {
        if Selected(c, flag, u) {
          ghost var g := FtlModel.PlaceUnit(c, State(), lpn, u, b, data[u]);
          var placed := PlaceUnit(lpn, u, b, data[u]);
          if placed.Panic? {
            return placed;
          }
        }
      }
      return Ok(());
    }

    /** writeInternal up to the GC decision */
    method WriteCore(lpn: nat, flag: seq<bool>, data: seq<nat>) returns (r: Result<()>)
      requires Ready() && FlagOk(c, flag) && |data| == Units(c)
      modifies this
      ensures Did(r, FtlModel.WriteCore(c, old(State()), lpn, flag, data))
    {
      hide Shape, ConfigOk, FtlModel.ClearOld, FtlModel.GetLastFreeBlock, FtlModel.WriteUnits;
      ghost var s0 := State();
      if lpn in table {
        var _ :- ClearOld(lpn, flag);
      } else {
        table := table[lpn := seq(Units(c), _ => Sentinel(c))];
      }
      assert PrepareWrite(c, s0, lpn, flag) == Ok(State());
      var b :- GetLastFreeBlock(flag);
      r := WriteUnits(lpn, flag, data, b);
    }

    // ---------------------------------------------------------------------------------------
    // Garbage collection

    /** Move unit u of (b, page) to block to. */
    method CopyUnit(b: nat, page: nat, to: nat, lpn: nat, d: nat, u: nat, refresh: bool) returns (r: Result<()>)
      requires Ready() && b in blocks && to in blocks && page < c.pagesInBlock && u < Units(c)
      modifies this`blocks, this`table, this`refreshQueues, this`layerQueueNum, this`insertedLayerCheck, this`draws
      ensures Did(r, FtlModel.CopyUnit(c, old(State()), b, page, to, lpn, d, u, refresh))
    {
      hide Shape, ConfigOk, FtlModel.KillUnit, FtlModel.PlaceUnit, BlockOk;
      Sizes();
      KillUnit(b, page, u);
      CountRefreshed(b, refresh);
      if lpn !in table {
        return Panic(InvalidMapping);
      }
      r := PlaceUnit(lpn, u, to, d);
    }

    method CountRefreshed(b: nat, refresh: bool)
      requires Ready() && b in blocks
      modifies this`blocks
      ensures Ready() && State() == Refreshed(c, old(State()), b, refresh)
    {
      hide Shape, ConfigOk, BlockOk;
      if refresh {
        blocks := blocks[b := blocks[b].(refreshed := blocks[b].refreshed + 1)];
      }
      assert State() == Refreshed(c, old(State()), b, refresh);
    }

    /** Copy one page if it holds a valid unit. */
    method CopyPage(b: nat, page: nat, refresh: bool) returns (r: Result<()>)
      requires Ready() && b in blocks && page < c.pagesInBlock
      modifies this
      ensures Did(r, FtlModel.CopyPage(c, old(State()), b, page, refresh))
    {
      Sizes();
      var v := blocks[b];
      assert BlockOk(v, c.pagesInBlock, c.ioUnits);
      if !Any(v.valid[page]) {
        return Ok(());
      }
      var bits, lpns, data := CopyMask(c, v.valid[page]), v.lpns[page], v.data[page];
      assert FlagOk(c, bits) && |lpns| == |data| == |bits| == c.ioUnits;
      hide Shape, ConfigOk, FtlModel.GetLastFreeBlock, FtlModel.CopyUnits, BlockOk, CopyMask, Any;
      var to :- GetLastFreeBlock(bits);
      r := CopyUnits(b, page, to, lpns, data, bits, refresh);
    }

    method CopyUnits(b: nat, page: nat, to: nat, lpns: seq<nat>, data: seq<nat>, bits: seq<bool>, refresh: bool)
      returns (r: Result<()>)
      requires Ready() && b in blocks && to in blocks && page < c.pagesInBlock
      requires |lpns| == |data| == |bits| == c.ioUnits
      modifies this`blocks, this`table, this`refreshQueues, this`layerQueueNum, this`insertedLayerCheck, this`draws
      ensures Did(r, FtlModel.CopyUnits(c, old(State()), b, page, to, lpns, data, bits, refresh, 0))
    {
      hide Shape, ConfigOk, FtlModel.CopyUnit, FtlModel.CopyUnits;
      UnitsPositive();
      ghost var goal := FtlModel.CopyUnits(c, State(), b, page, to, lpns, data, bits, refresh, 0);
      for u := 0 to Units(c)
        invariant Ready() && b in blocks && to in blocks
        invariant FtlModel.CopyUnits(c, State(), b, page, to, lpns, data, bits, refresh, u) == goal
      {
        CopyUnitsNext(State(), b, page, to, lpns, data, bits, refresh, u);
        if bits[u] {
          r := CopyUnit(b, page, to, lpns[u], data[u], u, refresh);
          if r.Panic? {
            return;
          }
        }
      }
      CopyUnitsNext(State(), b, page, to, lpns, data, bits, refresh, Units(c));
      return Ok(());
    }

    /** The definition of CopyUnits, unfolded once. */
    lemma CopyUnitsNext(s: Ftl, b: nat, page: nat, to: nat, lpns: seq<nat>, data: seq<nat>, bits: seq<bool>,
                        refresh: bool, u: nat)
      requires ConfigOk(c) && Shape(c, s) && b in s.blocks && to in s.blocks && page < c.pagesInBlock
      requires |lpns| == |data| == |bits| == c.ioUnits
      ensures FtlModel.CopyUnits(c, s, b, page, to, lpns, data, bits, refresh, u) ==
        if u >= Units(c) then Ok(s)
        else if bits[u] then
          match FtlModel.CopyUnit(c, s, b, page, to, lpns[u], data[u], u, refresh)
          case Ok(t) => FtlModel.CopyUnits(c, t, b, page, to, lpns, data, bits, refresh, u + 1)
          case Panic(why) => Panic(why)
        else FtlModel.CopyUnits(c, s, b, page, to, lpns, data, bits, refresh, u + 1)
    {
      hide Shape, FtlModel.CopyUnit;
    }

    /** Copy the pages of b from page on, in the given steps. */
    method CopyPages(b: nat, page: nat, step: nat, refresh: bool) returns (r: Result<()>)
      requires Ready() && b in blocks && 0 < step
      modifies this
      ensures Did(r, FtlModel.CopyPages(c, old(State()), b, page, step, refresh))
    {
      hide Shape, ConfigOk, FtlModel.CopyPage;
      ghost var goal := FtlModel.CopyPages(c, State(), b, page, step, refresh);
      var p := page;
      while p < c.pagesInBlock
        invariant Ready() && b in blocks
        invariant FtlModel.CopyPages(c, State(), b, p, step, refresh) == goal
      {
        ghost var g := FtlModel.CopyPage(c, State(), b, p, refresh);
        var copied := CopyPage(b, p, refresh);
        if copied.Panic? {
          return copied;
        }
        p := p + step;
      }
      return Ok(());
    }

    /** eraseInternal */
    method EraseInternal(b: nat) returns (r: Result<()>)
      requires Ready()
      modifies this`blocks, this`freeBlocks, this`nFreeBlocks, this`retired
      ensures Did(r, EraseBlock(c, old(State()), b))
    {
      hide Shape, ConfigOk, BlockOk, Erase;
      Sizes();
      if b !in blocks {
        return Panic(NoSuchBlock);
      }
      if CountPages(blocks[b].valid) != 0 {
        return Panic(ValidPagesInVictim);
      }
      var v := Erase(blocks[b], c.pagesInBlock, c.ioUnits);
      if v.eraseCount < c.badBlockThreshold {
        if freeBlocks == [] {
          return Panic(EmptyFreeList);
        }
        ErasedIndex(State(), b);
        ReturnBlock(b, v);
      } else {
        retired := retired + {b};
        blocks := blocks - {b};
      }
      return Ok(());
    }

    lemma ErasedIndex(s: Ftl, b: nat)
      requires ConfigOk(c) && Shape(c, s) && b in s.blocks
      ensures BlockOk(s.blocks[b], c.pagesInBlock, c.ioUnits)
      ensures Erase(s.blocks[b], c.pagesInBlock, c.ioUnits).idx < c.totalBlocks
    {
    }

    /** Block b goes back to the free list as v. */
    method ReturnBlock(b: nat, v: BlockView)
      requires Ready() && v.idx < c.totalBlocks && BlockOk(v, c.pagesInBlock, c.ioUnits)
      modifies this`blocks, this`freeBlocks, this`nFreeBlocks
      ensures State() == Release(c, old(State()), b, v)
    {
      hide Shape, ConfigOk, BlockOk, InsertAt;
      var k := FindReturnPlace(v.eraseCount);
      freeBlocks := freeBlocks[..k] + [v] + freeBlocks[k..];
      nFreeBlocks := nFreeBlocks + 1;
      blocks := blocks - {b};
    }

    /** The reverse search of eraseInternal */
    method FindReturnPlace(eraseCount: nat) returns (k: nat)
      ensures k == InsertAt(freeBlocks, |freeBlocks|, eraseCount)
    {
      k := |freeBlocks|;
      while 0 < k && eraseCount < freeBlocks[k - 1].eraseCount
        invariant k <= |freeBlocks|
        invariant InsertAt(freeBlocks, |freeBlocks|, eraseCount) == InsertAt(freeBlocks, k, eraseCount)
      {
        k := k - 1;
      }
    }

    /** doGarbageCollection: copy every victim, then erase them */
    method DoGarbageCollection(victims: seq<nat>) returns (r: Result<()>)
      requires Ready()
      modifies this
      ensures Did(r, Collect(c, old(State()), victims))
    {
      var _ :- CopyVictims(victims);
      r := EraseVictims(victims);
    }

    method CopyVictims(victims: seq<nat>) returns (r: Result<()>)
      requires Ready()
      modifies this
      ensures Did(r, FtlModel.CopyVictims(c, old(State()), victims, 0))
    {
      hide Shape, ConfigOk, FtlModel.CopyPages;
      ghost var goal := FtlModel.CopyVictims(c, State(), victims, 0);
      for i := 0 to |victims|
        invariant Ready()
        invariant FtlModel.CopyVictims(c, State(), victims, i) == goal
      {
        if victims[i] !in blocks {
          return Panic(NoSuchBlock);
        }
        ghost var g := FtlModel.CopyPages(c, State(), victims[i], 0, 1, false);
        var copied := CopyPages(victims[i], 0, 1, false);
        if copied.Panic? {
          return copied;
        }
      }
      return Ok(());
    }

    method EraseVictims(victims: seq<nat>) returns (r: Result<()>)
      requires Ready()
      modifies this`blocks, this`freeBlocks, this`nFreeBlocks, this`retired
      ensures Did(r, FtlModel.EraseVictims(c, old(State()), victims, 0))
    {
      hide Shape, ConfigOk, EraseBlock;
      ghost var goal := FtlModel.EraseVictims(c, State(), victims, 0);
      for i := 0 to |victims|
        invariant Ready()
        invariant FtlModel.EraseVictims(c, State(), victims, i) == goal
      {
        ghost var g := EraseBlock(c, State(), victims[i]);
        var erased := EraseInternal(victims[i]);
        if erased.Panic? {
          return erased;
        }
      }
      return Ok(());
    }

    /** selectVictimBlock in GC mode 0; one block more per write point if a write point was replaced */
    method SelectVictimBlock() returns (victims: seq<nat>)
      requires Ready()
      modifies this`bReclaimMore
      ensures State() == Chosen(old(State()))
      ensures Lightest(c, policy, State(), victims, c.reclaimBlocks + if old(bReclaimMore) then c.maxPerf else 0)
    {
      hide Shape, ConfigOk, BlockOk;
      Sizes();
      var n := c.reclaimBlocks;
      if bReclaimMore {
        n := n + c.maxPerf;
        bReclaimMore := false;
      }
      victims := SelectLightest(c, policy, State(), blocks, n);
    }

    /** The collections of writeInternal and refreshPage, if the free blocks are too few. */
    method CollectIfNeeded() returns (r: Result<()>, victims: seq<nat>)
      requires Ready()
      modifies this
      ensures Did(r, FtlModel.CollectIfNeeded(c, old(State()), victims))
      ensures GcNeeded(c, old(State())) ==>
        Lightest(c, policy, Chosen(old(State())), victims, c.reclaimBlocks + if old(bReclaimMore) then c.maxPerf else 0)
    {
      hide Shape, ConfigOk, FtlModel.Collect;
      assert 0 < c.totalBlocks by { TotalPositive(); }
      if nFreeBlocks as real / c.totalBlocks as real < c.gcThreshold {
        victims := SelectVictimBlock();
        ChosenReady(old(State()));
        r := DoGarbageCollection(victims);
      } else {
        victims := [];
        r := Ok(());
      }
    }

    lemma TotalPositive()
      requires ConfigOk(c)
      ensures 0 < c.totalBlocks
    {
    }

    lemma ChosenReady(s: Ftl)
      requires ConfigOk(c) && Shape(c, s)
      ensures Shape(c, Chosen(s))
    {
    }

    // ---------------------------------------------------------------------------------------
    // The operations of the layer

    /** freeBlockRatio() < gcThreshold */
    method FreeBlocksLow() returns (low: bool)
      requires ConfigOk(c)
      ensures low == GcNeeded(c, State())
    {
      low := nFreeBlocks as real / c.totalBlocks as real < c.gcThreshold;
    }

    lemma LightestVictims(s: Ftl, victims: seq<nat>, n: nat)
      requires Lightest(c, policy, Chosen(s), victims, n)
      ensures VictimsOk(c, s, victims)
    {
      hide NextPage;
      assert forall i :: 0 <= i < |victims| ==> Full(c, Chosen(s), victims[i]);
    }

    lemma NoVictims(s: Ftl)
      ensures VictimsOk(c, s, [])
    {
    }

    /** A collection whose victims are known to be in use, distinct and full. */
    method CollectChosen() returns (r: Result<()>, victims: seq<nat>)
      requires Ready()
      modifies this
      ensures Did(r, FtlModel.CollectIfNeeded(c, old(State()), victims))
      ensures GcNeeded(c, old(State())) ==> VictimsOk(c, old(State()), victims)
    {
      hide Shape, ConfigOk, FtlModel.CollectIfNeeded, GcNeeded, Lightest, VictimsOk;
      ghost var s := State();
      ghost var more := bReclaimMore;
      TotalPositive();
      r, victims := CollectIfNeeded();
      if GcNeeded(c, s) {
        LightestVictims(s, victims, c.reclaimBlocks + if more then c.maxPerf else 0);
      }
    }

    /** writeInternal.  The out-parameter names the victims of the collection, if there was one. */
    method WriteInternal(lpn: nat, flag: seq<bool>, data: seq<nat>, sendToPal: bool)
      returns (r: Result<()>, victims: seq<nat>)
      requires Valid() && FlagOk(c, flag) && |data| == Units(c)
      modifies this
      ensures Did(r, FtlModel.WriteInternal(c, old(State()), lpn, flag, data, sendToPal, victims))
      ensures Legal(c, old(State()), HostWrite(lpn, flag, data, sendToPal, victims))
      ensures r.Ok? ==> Valid() && Stored(c, old(State()), State(), lpn, flag, data, 0)
    {
      ghost var s0 := State();
      hide Shape, ConfigOk, FtlModel.WriteCore, FtlModel.CollectIfNeeded, FreeOk, TableSound, SlotsMapped, GcNeeded,
           VictimsOk, Stored, Lightest;
      victims := [];
      r := WriteCore(lpn, flag, data);
      if r.Ok? {
        ghost var s1 := State();
        NoVictims(s1);
        var low := FreeBlocksLow();
        if low && !sendToPal {
          r := Panic(GcWhileInitializing);
        } else {
          r, victims := CollectChosen();
        }
      }
      WriteInternalCore(c, s0, lpn, flag, data, sendToPal, victims);
    }

    /** trimInternal */
    method TrimInternal(lpn: nat) returns (r: Result<()>)
      requires Valid()
      modifies this`blocks, this`table
      ensures Did(r, Trim(c, old(State()), lpn))
      ensures r.Panic? <==> Unmapped(c, old(State()), lpn, 0)
      ensures r.Ok? ==> Valid() && Forgotten(old(State()), State(), lpn)
    {
      hide FreeOk, TableSound, SlotsMapped, Forgotten, Unmapped, Shape, ConfigOk, Trim, Queues;
      TrimCore(c, State(), lpn);
      r := TrimEntry(lpn);
    }

    method TrimEntry(lpn: nat) returns (r: Result<()>)
      requires Ready()
      modifies this`blocks, this`table
      ensures Did(r, Trim(c, old(State()), lpn))
    {
      hide Shape, ConfigOk, FtlModel.TrimUnits;
      if lpn in table {
        r := TrimUnits(lpn);
        if r.Ok? {
          table := table - {lpn};
        }
      } else {
        r := Ok(());
      }
    }

    method TrimUnits(lpn: nat) returns (r: Result<()>)
      requires Ready() && lpn in table
      modifies this`blocks
      ensures Did(r, FtlModel.TrimUnits(c, old(State()), lpn, 0))
    {
      hide Shape, ConfigOk, BlockOk, FtlModel.KillUnit;
      Sizes();
      ghost var goal := FtlModel.TrimUnits(c, State(), lpn, 0);
      for u := 0 to Units(c)
        invariant Ready() && lpn in table && |table[lpn]| == Units(c) <= c.ioUnits
        invariant FtlModel.TrimUnits(c, State(), lpn, u) == goal
      {
        var loc := table[lpn][u];
        if loc.block !in blocks {
          return Panic(UnmappedUnit);
        }
        if loc.page >= c.pagesInBlock {
          return Panic(OutOfRange);
        }
        KillUnit(loc.block, loc.page, u);
      }
      return Ok(());
    }

    /** readInternal: what is fetched for each selected unit */
    method ReadInternal(lpn: nat, flag: seq<bool>) returns (r: Result<seq<Option<nat>>>)
      requires Valid() && FlagOk(c, flag)
      ensures r.Ok? && |r.value| == Units(c)
      ensures forall u :: 0 <= u < Units(c) ==>
        r.value[u] == if Selected(c, flag, u) then Lookup(State(), lpn, u) else None
    {
      hide FreeOk, TableSound, SlotsMapped, Lookup, Shape, ConfigOk, FtlModel.ReadUnit;
      var found := [];
      for u := 0 to Units(c)
        invariant |found| == u
        invariant forall w :: 0 <= w < u ==>
          found[w] == if Selected(c, flag, w) then Lookup(State(), lpn, w) else None
      {
        if Selected(c, flag, u) {
          ReadUnitCore(c, State(), lpn, u);
          var one := ReadUnit(lpn, u);
          found := found + [one.value];
        } else {
          found := found + [None];
        }
      }
      return Ok(found);
    }

    method ReadUnit(lpn: nat, u: nat) returns (r: Result<Option<nat>>)
      requires Ready() && u < Units(c)
      ensures r == FtlModel.ReadUnit(c, State(), lpn, u)
    {
      if lpn in table && InRange(c, table[lpn][u]) {
        var loc := table[lpn][u];
        if loc.block !in blocks {
          return Panic(NoSuchBlock);
        }
        assert BlockOk(blocks[loc.block], c.pagesInBlock, c.ioUnits);
        return Ok(Some(blocks[loc.block].data[loc.page][u]));
      }
      return Ok(None);
    }

    // ---------------------------------------------------------------------------------------
    // Refresh

    /** One iteration of the drain loop of refreshPage */
    method RefreshOneLayer(num: nat) returns (r: Result<()>)
      requires Ready() && num < c.queues.queueCount && checkedQueues[num] != []
      modifies this
      ensures Did(r, RefreshLayer(c, old(State()), num))
    {
      var layer := checkedQueues[num][0];
      checkedQueues := checkedQueues[num := checkedQueues[num][1..]];
      var b := layer / Q.LAYERS_PER_BLOCK;
      if num != layerQueueNum[layer] {
        return Ok(());
      }
      if !insertedLayerCheck[layer] {
        return Panic(LayerBitmapCorrupted);
      }
      insertedLayerCheck := insertedLayerCheck[layer := false];
      if b !in blocks {
        return Ok(());
      }
      assert State() == old(State()).(queues := Q.Pop(c.queues, old(State()).queues, num).value.q);
      hide FtlModel.CopyPages;
      r := CopyPages(b, layer % Q.LAYERS_PER_BLOCK, Q.LAYERS_PER_BLOCK, true);
    }

    method DrainQueue(num: nat) returns (r: Result<()>)
      requires Ready() && num < c.queues.queueCount
      modifies this
      ensures Did(r, Drain(c, old(State()), num, c.queues.maxLayers))
    {
      hide ConfigOk, RefreshLayer, Shape, Drain, Q.Shape, BlockOk;
      ghost var goal := Drain(c, State(), num, c.queues.maxLayers);
      QueueCount(State());
      var i := 0;
      while i < c.queues.maxLayers && checkedQueues[num] != []
        invariant Ready() && |checkedQueues| == c.queues.queueCount && i <= c.queues.maxLayers
        invariant Drain(c, State(), num, c.queues.maxLayers - i) == goal
        decreases c.queues.maxLayers - i
      {
        DrainNext(State(), num, c.queues.maxLayers - i);
        r := RefreshOneLayer(num);
        if r.Panic? {
          assert goal == Panic(r.why);
          return;
        }
        i := i + 1;
      }
      DrainNext(State(), num, c.queues.maxLayers - i);
      return Ok(());
    }

    lemma QueueCount(s: Ftl)
      requires ConfigOk(c) && Shape(c, s)
      ensures |s.queues.checked| == c.queues.queueCount
    {
    }

    /** The definition of Drain, unfolded once. */
    lemma DrainNext(s: Ftl, num: nat, n: nat)
      requires ConfigOk(c) && Shape(c, s) && num < c.queues.queueCount
      ensures Drain(c, s, num, n) ==
        if n == 0 || s.queues.checked[num] == [] then Ok(s)
        else
          match RefreshLayer(c, s, num)
          case Ok(t) => Drain(c, t, num, n - 1)
          case Panic(why) => Panic(why)
      ensures n > 0 && s.queues.checked[num] != [] && RefreshLayer(c, s, num).Ok? ==>
        |RefreshLayer(c, s, num).value.queues.checked| == c.queues.queueCount
    {
      hide RefreshLayer;
    }

    /** What the collections of refreshPage select. */
    ghost predicate PageVictimsOk(s: Ftl, num: nat, before: seq<nat>, after: seq<nat>)
      requires ConfigOk(c) && Shape(c, s) && num < c.queues.queueCount
    {
      var r1 := FtlModel.CollectIfNeeded(c, s, before);
      && (GcNeeded(c, s) ==> VictimsOk(c, s, before))
      && (r1.Ok? ==>
        var r2 := Drain(c, r1.value, num, c.queues.maxLayers);
        r2.Ok? && GcNeeded(c, r2.value) ==> VictimsOk(c, r2.value, after))
    }

    /** refreshPage.  The out-parameters name the victims of the two collections. */
    method RefreshPage(num: nat) returns (r: Result<()>, before: seq<nat>, after: seq<nat>)
      requires Ready() && num < c.queues.queueCount
      modifies this
      ensures Did(r, FtlModel.RefreshPage(c, old(State()), num, before, after))
      ensures PageVictimsOk(old(State()), num, before, after)
    {
      hide Shape, ConfigOk, FtlModel.CollectIfNeeded, GcNeeded, VictimsOk, Drain;
      after := [];
      r, before := CollectChosen();
      if r.Ok? {
        r := DrainQueue(num);
        if r.Ok? {
          r, after := CollectChosen();
        }
      }
    }

    /** refresh_event */
    method RefreshEvent() returns (r: Result<()>, before: seq<nat>, after: seq<nat>)
      requires Valid()
      modifies this
      ensures Did(r, Refresh(c, old(State()), before, after))
      ensures RefreshVictimsOk(c, old(State()), before, after)
      ensures r.Ok? ==> Valid() && SameLookup(old(State()), State())
    {
      hide Shape, ConfigOk, FtlModel.CollectIfNeeded, FreeOk, TableSound, SlotsMapped, GcNeeded, VictimsOk,
           Drain, SwapQueues, CountCall, Q.Target, SameLookup, FtlModel.RefreshPage;
      ghost var s0 := State();
      var num := StartEvent();
      r, before, after := RefreshPage(num);
      if r.Ok? {
        CountEvent();
      }
      RefreshCore(c, s0, before, after);
    }

    method StartEvent() returns (num: nat)
      requires Ready()
      modifies this`checkedQueues, this`refreshQueues
      ensures Ready() && num == Q.Target(c.queues, old(State()).queues) && State() == SwapQueues(c, old(State()), num)
    {
      num := (refreshCallCount + 1) % c.queues.queueCount;
      checkedQueues, refreshQueues :=
        checkedQueues[num := refreshQueues[num]], refreshQueues[num := checkedQueues[num]];
      assert State() == SwapQueues(c, old(State()), num);
    }

    method CountEvent()
      requires Ready()
      modifies this`refreshCallCount
      ensures State() == CountCall(c, old(State()))
    {
      refreshCallCount := refreshCallCount + 1;
    }

    // ---------------------------------------------------------------------------------------
    // Construction

    /** Every block is free and no write point has been taken. */
    constructor (config: Config, victimPolicy: Policy)
      requires ConfigOk(config)
      ensures c == config && policy == victimPolicy && Valid() && State() == Blank(config)
    {
      c, policy := config, victimPolicy;
      table, blocks := map[], map[];
      freeBlocks := seq(config.totalBlocks, i requires 0 <= i =>
        New(i, config.pagesInBlock, config.ioUnits, config.initialErase));
      nFreeBlocks := config.totalBlocks;
      lastFreeBlock, lastFreeBlockIOMap := seq(config.maxPerf, _ => 0), seq(config.ioUnits, _ => false);
      lastFreeBlockIndex, bReclaimMore, retired := 0, false, {};
      insertedLayerCheck := seq(config.queues.layerSlots, _ => false);
      layerQueueNum := seq(config.queues.layerSlots, _ => 0);
      refreshQueues := seq(config.queues.queueCount, _ => []);
      checkedQueues := seq(config.queues.queueCount, _ => []);
      refreshCallCount, draws := 0, 0;
      new;
      BlankCore(c);
      assert State() == Blank(c);
    }

    method TakeWritePoint(i: nat) returns (r: Result<()>)
      requires Ready() && i < c.maxPerf
      modifies this`blocks, this`freeBlocks, this`nFreeBlocks, this`lastFreeBlock
      ensures Did(r, TakePoint(c, old(State()), i))
    {
      hide FtlModel.GetFreeBlock;
      var b :- GetFreeBlock(i);
      assert |lastFreeBlock| == c.maxPerf;
      lastFreeBlock := lastFreeBlock[i := b];
      return Ok(());
    }

    /** The loop of the constructor that takes the write points, which may run out of blocks. */
    method TakeWritePoints() returns (r: Result<()>)
      requires Ready()
      modifies this`blocks, this`freeBlocks, this`nFreeBlocks, this`lastFreeBlock
      ensures Did(r, FtlModel.TakeWritePoints(c, old(State()), 0))
    {
      ghost var goal := FtlModel.TakeWritePoints(c, State(), 0);
      hide ConfigOk, Shape, TakePoint;
      for i := 0 to c.maxPerf
        invariant Ready()
        invariant FtlModel.TakeWritePoints(c, State(), i) == goal
      {
        r := TakeWritePoint(i);
        if r.Panic? {
          assert goal == Panic(r.why);
          return;
        }
      }
      return Ok(());
    }

    /** Construction as a whole fails exactly when there are fewer blocks than write points. */
    method TakeAllWritePoints() returns (r: Result<()>)
      requires Valid() && State() == Blank(c)
      modifies this`blocks, this`freeBlocks, this`nFreeBlocks, this`lastFreeBlock
      ensures Did(r, Construct(c))
      ensures r.Panic? <==> c.totalBlocks < c.maxPerf
      ensures r.Ok? ==> Valid() && forall l: nat, u: nat :: Lookup(State(), l, u) == None
    {
      ConstructCore(c);
      hide FreeOk, TableSound, SlotsMapped, Lookup, Shape, ConfigOk;
      r := TakeWritePoints();
    }
  }
}

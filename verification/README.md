# A verified model of SimpleSSD

SimpleSSD is an event-driven simulator of solid state drives. This project models the parts of it that
keep state under hard invariants, and proves what their code and their panics promise.

- **Flash translation layer.** `FtlModel` gives every operation of the page mapping as a function on a state
  value, with each panic as an outcome. `FtlInvariant`, `FtlOperations` and `FtlRuns` prove that the
  layer behaves like a plain map over every run; `FtlTrims`, `FtlWritePoints` and `FtlQueues` say exactly when
  a trim panics, when a collection loses a write point, and that no flagged layer is lost;
  `RefreshQueues`, `VictimSelection` and `WearLeveling` are its parts. Class `PageMapping` does the
  operations in place, step by step, and each method is proved equal to its function. `FlashBlock`,
  class `Block` and class `Bitset` are the blocks and the bits below it. `SoloWrites`, `WritePointLoss`,
  `FreeListUnderrun` and `BitmapPanic` follow the layer from its constructor into its failures;
  `LayerCopies` and `FtlCopies` say when the last of them cannot happen, and `RandomSelection` when the drawing of
  victims ends.
- **DMA FIFO.** `FifoWrite` and `FifoRead` are the two directions as state machines whose steps are the
  handlers; `DmaPieces` is what the pieces of a request promise; classes `WriteQueue` and `ReadQueue` do the
  handlers in place.
- **Event engine.** `EventEngine` with a reference scheduler, and class `Engine`.
- **Address layout.** `AddressMap` is the mixed-radix map, `AddressConvert` the loops that compute it, the
  sizes and the allocation string; `PrpList` builds the chained lists of NVM Express 1.3, section 4.3.
- **DRAM cycle accounting.** `DramCycles` and class `CommandAnalysis`.
- **Write cache.** Class `GenericCache`, with two ghost maps: what was written last, and what the FTL holds.
- **Host interface.** `BusyTime`, `HostCompletion` and class `HIL`.
- **Bloom filter.** Class `Filter` of module `BloomFilter`.

A panic of the source is a value of `Outcome.PanicKind`; an access outside its container is one as well. Latencies,
clocks, the error model, hash functions and the state of the CPU and DRAM models are arbitrary. Methods that change
an object state its whole new state through a function of the old one; the lemmas are about those functions.

## Findings

Where the code does not do what it promises, there is a run or an input that shows it, and a condition under which it
happens: if and only if, where the last column does not say otherwise.

| what happens | source | input | exact condition |
|---|---|---|---|
| A collection takes a block that is a write point, and a later write panics with "Corrupted". The other erase path replaces such a write point (`page_mapping.cc:2083-2104`), this one does not. | simplessd/ftl/page_mapping.cc:875-880 | `WritePointLoss.WritePointIsLost` | `FtlWritePoints.CollectKeepsPoints` |
| The trim of a page that is written in part panics with "Block is not in use". | simplessd/ftl/page_mapping.cc:1669-1671 | `FtlTrims.HalfTrimPanics` | `FtlTrims.TrimAfterRun` |
| Erasing a victim while no block is free: the reverse search for its place starts from the last element of an empty list. | simplessd/ftl/page_mapping.cc:1706-1717 | `FreeListUnderrun.FreeListIsEmpty` | `FreeListUnderrun.CollectUnderruns`, `FtlOperations.EraseCore` |
| With the random or the d-choice policy a collection that wants more blocks than are full draws for ever. | simplessd/ftl/page_mapping.cc:991-1001 | `FreeListUnderrun.RandomNeverEnds` | `RandomSelection.EndsExactly` |
| A copy of a layer stays behind, because a drain did not empty its queue or, with more than 25 queues, because the wrapped comparison moved a layer of the examined queue; when the layer is recorded there again, it ends with "Corrupted layer check bitmap". | simplessd/ftl/page_mapping.cc:1245-1248 | `BitmapPanic.BitmapIsCorrupted` | of one step: `RefreshQueues.PopNoneLost`; impossible over any run with at most 25 queues whose drains may take every layer: `FtlCopies.BitmapNeverCorrupted` |
| A request that must be split is inserted although the FIFO has no room: the usage exceeds the capacity. | simplessd/util/fifo.cc:115-119 and 239-243 | `FifoWrite.SplitOverruns`, `FifoRead.SplitOverruns` | `FifoWrite.OverCapacityExactly`, `FifoRead.OverCapacityExactly` |
| Leaving self-refresh early, after a window has ended in the precharge part of its refresh, schedules that part a second time: the counters run ahead by the cycles that the window has counted already. | lib/drampower/src/CmdHandlers.cc:497-509 | `DramCycles.EarlyExitAccount` | `DramCycles.EarlyExitEnd` |
| The union with a filter that was compressed to the same size in other steps loses keys of that filter. | simplessd/ftl/bloom_filter.hh:413-430 | `BloomFilter.UnionOfDifferentSteps` | never with the same steps, `BloomFilter.Filter.Union`; otherwise it depends on the hashes |
| The union with a filter that was compressed further reads behind its table. | simplessd/ftl/bloom_filter.hh:413-430 | `BloomFilter.UnionOfCompressed` | `BloomFilter.Filter.Union` |
| Removing more than half of a Bloom filter writes behind the new table. | simplessd/ftl/bloom_filter.hh:692-697 | `BloomFilter.CompressToQuarter` | `BloomFilter.Filter.Compress` |
| A request that is queued alone, to be finished at the tick at which the last one was, gets no completion event, and nothing is completed any more. | simplessd/hil/hil.cc:196-203 | `HostCompletion.SecondIsLost` | `HostCompletion.StepAwake` |
| Requests whose begins are out of order can be counted for less than the union of their intervals. The host layer does not report them so. | simplessd/hil/hil.cc:181-194 | `BusyTime.BackwardIsMissed` | `BusyTime.BusyExactly` |
| A bitset without bits is read or written behind its end by all, set and flip. | simplessd/util/bitset.cc:67-78 | size 0 | `BitsetObject.Bitset.All` |

## Model

| member | source | states |
|---|---|---|
| FtlRuns.ReadAfterRun | simplessd/ftl/page_mapping.cc:1421-1682 | After any run of writes, trims and refresh events from the constructor, with the collections they trigger, reading a unit of a page gives the data of the latest write to it, and nothing exactly when it was never written or was trimmed since. This is for every configuration, with and without separately mapped units. |
| FtlRuns.RunRefines | simplessd/ftl/page_mapping.cc:1494-1682 | Over any run the layer keeps its invariant (the table and the valid slots are inverse to each other, free, used and retired blocks partition the flash) and does to look-ups what the operations do to a plain map; a run that stops, stops with one of six panics. "Write to non erased page", "Write to block should sequential", "Invalid mapping table entry", "There are valid pages in victim block", look-ups of missing blocks and out-of-range accesses never happen. |
| FtlRuns.StepRefines | simplessd/ftl/page_mapping.cc:695-730 | The same for a single host write, trim or refresh event. |
| FtlOperations.WriteCoreCore | simplessd/ftl/page_mapping.cc:1494-1614 | A write stores exactly its selected units and leaves every other look-up alone. It can only panic for want of a write point: because one was lost, or because it is full and no block is free. |
| FtlOperations.WriteInternalCore | simplessd/ftl/page_mapping.cc:1494-1652 | A write with its collection keeps the invariant and the data of all pages; it panics with "GC triggered while in initialization" exactly when it is not sent to the PAL and a collection is needed after it. |
| FtlOperations.PrepareCore | simplessd/ftl/page_mapping.cc:1504-1531 | Before the write point is taken, exactly the selected units of the page are unmapped; no block that is looked up is missing. |
| FtlOperations.ClearOldCore | simplessd/ftl/page_mapping.cc:1504-1518 | Invalidating the old units meets only blocks in use and unmaps exactly the selected units. |
| FtlOperations.GetLastPanics | simplessd/ftl/page_mapping.cc:860-890 | getLastFreeBlock panics exactly when the write point it moves to is not in use, or is full while no block is free. |
| FtlOperations.GetLastCore | simplessd/ftl/page_mapping.cc:860-890 | Otherwise it yields a block in use with room in every unit, and no look-up changes. |
| FtlInvariant.PlaceCore | simplessd/ftl/page_mapping.cc:1556-1614 | Programming the next slot of a block maps the unit to it and to nothing else; every other look-up and the inverse correspondence stay. |
| FtlInvariant.KillCore | simplessd/ftl/common/block.cc:510-517 | Invalidating a valid slot unmaps exactly the unit that its tag names. |
| FtlInvariant.GetFreeCore | simplessd/ftl/page_mapping.cc:808-858 | getFreeBlock fails exactly when no block is free; otherwise an erased block leaves the free list and comes into use. |
| FtlInvariant.GetFreeLeastWorn | simplessd/ftl/page_mapping.cc:808-858 | The block taken is a least-worn one of the requested residue class or, when no free block is in that class, of the whole list. |
| FtlInvariant.ReturnFreeOk | simplessd/ftl/page_mapping.cc:1706-1728 | A block put back after the last one that is not worn more keeps the free list sorted, free of duplicates and complete. |
| FtlOperations.CopyUnitCore | simplessd/ftl/page_mapping.cc:1069-1118 | Moving one unit of a page to a write point keeps the invariant and every look-up, even within one block. |
| FtlOperations.CopyPageCore | simplessd/ftl/page_mapping.cc:1049-1121 | Copying a page keeps every look-up; in a full block no slot of the page stays valid; all other slots of full blocks are as before, and full blocks stay full. It panics only for want of a write point. |
| FtlOperations.CopyPagesCore | simplessd/ftl/page_mapping.cc:1260-1348 | The same for all pages of a block, or for those of one layer, when refresh copies within the block that it reads. |
| FtlOperations.CopyVictimsCore | simplessd/ftl/page_mapping.cc:1040-1129 | After the copy phase no victim holds a valid slot, and no copy has landed in a victim, although victims may be write points. |
| FtlOperations.EraseCore | simplessd/ftl/page_mapping.cc:1684-1734 | Erasing a block without valid slots fails exactly when the block should go back to an empty free list; look-ups stay. |
| FtlOperations.EraseVictimsCore | simplessd/ftl/page_mapping.cc:1150-1156 | All victims are erased, in any number, and nothing else leaves the blocks in use. |
| FtlOperations.CollectCore | simplessd/ftl/page_mapping.cc:1023-1156 | A collection keeps the invariant and every look-up and erases every victim; of all its panics three remain possible. |
| FtlRuns.TrimCore | simplessd/ftl/page_mapping.cc:1654-1682 | Trim panics exactly when the table entry of the page has a unit that is not mapped; otherwise it forgets this page and nothing else. |
| FtlTrims.TrimAfterRun | simplessd/ftl/page_mapping.cc:1654-1682 | After any run, trim panics exactly when the page is partly written: the host's writes since its last trim cover some of its units but not all. |
| FtlTrims.RunRooted | simplessd/ftl/page_mapping.cc:1519-1531 | No run leaves a table entry without mapped units behind. |
| FtlTrims.HalfTrimPanics | simplessd/ftl/page_mapping.cc:1666-1675 | The input: from the constructor, a write of one of two units and a trim of the page end with "Block is not in use". |
| FtlRuns.ReadUnitCore | simplessd/ftl/page_mapping.cc:1421-1492 | readInternal finds every mapped block in use and fetches what the look-up finds. |
| FtlRuns.RefreshLayerCore | simplessd/ftl/page_mapping.cc:1223-1348 | Draining one layer keeps the invariant and every look-up. |
| FtlRuns.DrainCore | simplessd/ftl/page_mapping.cc:1223-1348 | So does draining any number of layers. |
| FtlRuns.RefreshCore | simplessd/ftl/page_mapping.cc:329-387 | A refresh event with its two collections keeps the invariant and every look-up; four panics remain possible. |
| FtlRuns.ConstructCore | simplessd/ftl/page_mapping.cc:35-131 | The constructor fails exactly when there are fewer blocks than write points; otherwise the invariant holds and nothing is mapped. |
| FtlWritePoints.CollectKeepsPoints | simplessd/ftl/page_mapping.cc:860-890 | After a collection all write points are in use if and only if each one that was a victim is visited by the rotation of the copy phase (and so replaced). |
| FtlWritePoints.RunKeepsPoints | simplessd/ftl/page_mapping.cc:860-890 | Over any run whose collections meet that condition the write points stay in use and distinct, and no operation panics for a lost one. |
| FtlWritePoints.NoPointLost | simplessd/ftl/page_mapping.cc:35-131 | The same from the constructor. |
| FtlWritePoints.ConstructPoints | simplessd/ftl/page_mapping.cc:92-104 | After construction every write point is in use and they are distinct. |
| FtlWritePoints.DeadCollected | simplessd/ftl/page_mapping.cc:1023-1156 | A collection of blocks without valid slots copies nothing and erases all of them; the write points keep naming them. |
| WritePointLoss.WritePointIsLost | simplessd/ftl/page_mapping.cc:875-880 | The input: 1024 writes of one page to four blocks with two write points, a write whose greedy collection takes both full blocks, and one more write, which panics because its write point is gone. |
| WritePointLoss.WritesLead | simplessd/ftl/page_mapping.cc:860-890 | The state after any number of those writes, by induction. |
| SoloWrites.OverwriteOnce | simplessd/ftl/page_mapping.cc:1494-1614 | What one overwrite of a single-unit page does to the table, the write points, the next pages and the refresh queues, exactly. |
| SoloWrites.ReplaceOnce | simplessd/ftl/page_mapping.cc:882-887 | What it does when the write point is full: a free block takes the place of the write point, and the write. |
| SoloWrites.OnePointWrites | simplessd/ftl/page_mapping.cc:1494-1614 | The state after any number of overwrites when block 0 is the only write point, by induction. |
| FreeListUnderrun.FreeListIsEmpty | simplessd/ftl/page_mapping.cc:1706-1717 | The input: 512 writes of one page to two blocks with one write point, and a write that takes the last free block; its greedy collection erases the full block and looks for a place behind the last element of an empty free list. |
| FreeListUnderrun.CollectUnderruns | simplessd/ftl/page_mapping.cc:1706-1717 | A collection gets to that access if and only if its copies leave no block free and one of its victims is not yet worn out. |
| FreeListUnderrun.EraseVictimsExactly | simplessd/ftl/page_mapping.cc:1684-1734 | Erasing the victims of a collection fails if and only if no block is free and one of them is not yet worn out; retired blocks in front of it do not help. |
| FreeListUnderrun.RandomNeverEnds | simplessd/ftl/page_mapping.cc:981-1004 | The input: after the same 512 writes the next one needs a collection of two blocks while one is full; whatever the random policy draws, it never has two. |
| FtlQueues.NoLayerLost | simplessd/ftl/page_mapping.cc:329-472 | In every state that the layer reaches from the constructor, each flagged layer has a copy in one of the two queues of its recorded index. |
| FtlQueues.RunKeepsLayers | simplessd/ftl/page_mapping.cc:329-472 | Every run of writes, trims, collections and refresh events keeps that. |
| FtlQueues.StepLayers | simplessd/ftl/page_mapping.cc:329-472 | Every single operation keeps it. |
| RefreshQueues.InsertNoneLost | simplessd/ftl/page_mapping.cc:624-660 | insertToQueue keeps it, also when it moves a layer on the wrapped 32-bit distance of queue numbers and leaves a stale copy behind. |
| RefreshQueues.InsertFlags | simplessd/ftl/page_mapping.cc:624-660 | It flags the given layer and no other. |
| RefreshQueues.InsertGroupNoneLost | simplessd/ftl/page_mapping.cc:445-472 | The group loops of setRefreshPeriod in mode 1 keep it. |
| RefreshQueues.InsertGroupFlags | simplessd/ftl/page_mapping.cc:445-472 | They flag exactly the layers of the group that the block has. |
| RefreshQueues.SetPeriodNoneLost | simplessd/ftl/page_mapping.cc:389-472 | setRefreshPeriod keeps it in modes 0 and 1, whatever the error model says. |
| RefreshQueues.SetPeriodFlags | simplessd/ftl/page_mapping.cc:389-472 | It flags the given layer in mode 0; in mode 1 the whole group for its first layer and nothing for the others. |
| RefreshQueues.PopNoneLost | simplessd/ftl/page_mapping.cc:1223-1251 | The drain step keeps it, and stops with "Corrupted layer check bitmap" exactly when the copy it takes is recorded at this queue while the layer's bit is clear. |
| RefreshQueues.RemoveFirstAt | simplessd/ftl/page_mapping.cc:662-675 | Erasing at the first match is what removeFromQueue does to its queue. |
| BitmapPanic.BitmapIsCorrupted | simplessd/ftl/page_mapping.cc:1245-1248 | The input: three rounds of 64 writes, a trim and a refresh event, and four more refresh events, run from the constructor, end with that panic. |
| BitmapPanic.RoundLeads | simplessd/ftl/page_mapping.cc:329-472 | The exact queues after one such round, which leaves a copy of the last layer behind. |
| BitmapPanic.DrainBare | simplessd/ftl/page_mapping.cc:1223-1251 | The exact queues after a drain that stops one layer early. |
| FtlCopies.BitmapNeverCorrupted | simplessd/ftl/page_mapping.cc:1223-1251 | With at most 25 queues and a limit per event that covers the layer bitmap, no legal run from the constructor ends with "Corrupted layer check bitmap", and after every run each flagged layer is in the refresh queue of its recorded index once, and nowhere else. |
| FtlCopies.RunCopies | simplessd/ftl/page_mapping.cc:329-472 | The same from any settled state, by induction over the run. |
| FtlCopies.DrainCopies | simplessd/ftl/page_mapping.cc:1223-1348 | The drain loop takes every layer of the examined queue, although the pages that it copies schedule their layers again, and meets no cleared bit. |
| LayerCopies.SetPeriodDraining | simplessd/ftl/page_mapping.cc:389-472 | setRefreshPeriod keeps one copy of every flagged layer while a queue is being examined, and leaves the examined queue alone. |
| LayerCopies.InsertOnce | simplessd/ftl/page_mapping.cc:624-660 | So does insertToQueue: the wrapped distance never moves a layer that is recorded at the examined queue, because its queue is first in the cyclic order. |
| LayerCopies.PopDraining | simplessd/ftl/page_mapping.cc:1223-1251 | The layer that is taken is flagged and recorded at the queue; the others keep their copies. |
| LayerCopies.DistinctLength | simplessd/ftl/page_mapping.cc:1219-1225 | A queue without repetitions is no longer than the layer bitmap, so that the limit per event is enough. |
| VictimSelection.SelectLightest | simplessd/ftl/page_mapping.cc:948-1021 | The selected blocks are distinct and full; none of the full blocks that were left out is lighter; all full blocks are taken when they are fewer than asked for. |
| RandomSelection.EndsExactly | simplessd/ftl/page_mapping.cc:981-1004 | The drawing loop of the random and d-choice policies can end if and only if at least as many blocks as it wants are full and not in the list of exceptions; otherwise it never ends, whatever is drawn. |
| RandomSelection.SelectDrawn | simplessd/ftl/page_mapping.cc:981-1018 | When it ends, the victims are distinct full blocks outside the list of exceptions, as many as wanted, and none that was drawn and left out is lighter. |
| VictimSelection.FirstLightest | simplessd/ftl/page_mapping.cc:1006-1018 | Sorting and taking the front gives the wanted number of different blocks of the list, or all, and none that is left out is lighter. |
| VictimSelection.CalculateVictimWeight | simplessd/ftl/page_mapping.cc:893-946 | The list holds every full block in use with its weight, once, and no other block. |
| VictimSelection.SortByWeight | simplessd/ftl/page_mapping.cc:1006-1012 | The result is ordered by weight and has the same elements. |
| WearLeveling.CalculateWearLeveling | simplessd/ftl/page_mapping.cc:2651-2682 | The index is the square of the sum of all erase counts over the number of logical blocks times the sum of their squares; it is -1 exactly when no block was ever erased, and otherwise positive and at most the number of blocks that are not retired for each logical block. |
| WearLeveling.ScanEraseCounts | simplessd/ftl/page_mapping.cc:2657-2676 | The scan that stops at the first free block without erases gives the sums over all blocks, because the free list is sorted. |
| WearLeveling.ScanBounded | simplessd/ftl/page_mapping.cc:2657-2682 | The square of the sum is at most the number of blocks times the sum of squares, over all blocks in use and all free ones. |
| PageMapping.PageMapping.WriteInternal | simplessd/ftl/page_mapping.cc:1494-1652 | In place, step by step, as the source: the outcome and the whole new state are those of the function; the victims chosen are legal; what is stored is as promised. |
| PageMapping.PageMapping.TrimInternal | simplessd/ftl/page_mapping.cc:1654-1682 | In place; outcome and whole new state are those of FtlModel.Trim; it panics exactly when a unit of the page is not mapped, and otherwise forgets the page and nothing else. |
| PageMapping.PageMapping.ReadInternal | simplessd/ftl/page_mapping.cc:1421-1492 | Each selected unit is fetched as the look-up says; it never panics. |
| PageMapping.PageMapping.RefreshEvent | simplessd/ftl/page_mapping.cc:329-387 | In place; outcome and whole new state are those of FtlModel.Refresh with the victims that were chosen, which are legal; every look-up stays. |
| PageMapping.PageMapping.DoGarbageCollection | simplessd/ftl/page_mapping.cc:1023-1156 | In place; outcome and whole new state are those of FtlModel.Collect. |
| PageMapping.PageMapping.SelectVictimBlock | simplessd/ftl/page_mapping.cc:948-1021 | The lightest full blocks, as many as configured, and one more per write point after a write point was replaced; bReclaimMore is cleared. |
| PageMapping.PageMapping.EraseInternal | simplessd/ftl/page_mapping.cc:1684-1734 | In place; outcome, with each panic, and whole new state are those of FtlModel.EraseBlock, which EraseCore is about. |
| PageMapping.PageMapping.GetFreeBlock | simplessd/ftl/page_mapping.cc:808-858 | In place; outcome, with each panic, and whole new state are those of FtlModel.GetFreeBlock, which GetFreeLeastWorn is about. |
| PageMapping.PageMapping.GetLastFreeBlock | simplessd/ftl/page_mapping.cc:860-890 | In place; outcome, with each panic, and whole new state are those of FtlModel.GetLastFreeBlock, which GetLastPanics is about. |
| PageMapping.PageMapping.InsertToQueue | simplessd/ftl/page_mapping.cc:624-660 | In place; the queues become those of RefreshQueues.Insert, including its comparison in 32 bits. |
| PageMapping.PageMapping.SetRefreshPeriod | simplessd/ftl/page_mapping.cc:389-472 | In place; the queues become those of RefreshQueues.SetPeriod. |
| PageMapping.PageMapping.DrainQueue | simplessd/ftl/page_mapping.cc:1223-1348 | In place; outcome and whole new state are those of FtlModel.Drain, which DrainCore is about. |
| PageMapping.PageMapping.TakeAllWritePoints | simplessd/ftl/page_mapping.cc:92-104 | In place; fails exactly when there are fewer blocks than write points. |
| BlockObject.Block.Write | simplessd/ftl/common/block.cc:446-489 | Both representations do what the abstract block does, with each panic; a failed write changes nothing. |
| BlockObject.Block.Erase | simplessd/ftl/common/block.cc:491-508 | All slots erased, none valid, next pages zero, one more erase. |
| BlockObject.Block.Invalidate | simplessd/ftl/common/block.cc:510-517 | Exactly one slot becomes invalid. |
| BlockObject.Block.GetPageInfo | simplessd/ftl/common/block.cc:405-424 | Tags and valid bits of a page, and whether any is set; it panics exactly for a map of another size. |
| BlockObject.Block.GetValidPageCount | simplessd/ftl/common/block.cc:338-353 | The number of pages with a valid unit. |
| BlockObject.Block.GetValidPageCountRaw | simplessd/ftl/common/block.cc:355-369 | The number of valid units. |
| BlockObject.Block.GetNextWritePageIndex | simplessd/ftl/common/block.cc:389-399 | The largest of the next pages of the units. |
| BitsetObject.Bitset.Count | simplessd/util/bitset.cc:94-102 | The number of bits that are set, byte by byte; relies on the padding being zero. |
| BitsetObject.Bitset.None | simplessd/util/bitset.cc:84-92 | True exactly when no bit is set. |
| BitsetObject.Bitset.All | simplessd/util/bitset.cc:67-78 | True exactly when all bits are set; the access behind the end happens exactly for a bitset without bits. |
| BitsetObject.Bitset.Equals | simplessd/util/bitset.hh:74-92 | Two bitsets of one size are equal exactly when all bits agree; other sizes panic. |
| BitsetObject.Bitset.Set | simplessd/util/bitset.cc:118-124 | Exactly one bit takes the value. |
| BitsetObject.Bitset.FlipOne | simplessd/util/bitset.cc:146-149 | Exactly one bit changes. |
| BitsetObject.Bitset.SetAll | simplessd/util/bitset.cc:108-116 | All bits are set and the padding stays zero. |
| BitsetObject.Bitset.FlipAll | simplessd/util/bitset.cc:136-144 | All bits change and the padding stays zero. |
| BitsetObject.Bitset.AndWith | simplessd/util/bitset.cc:155-165 | Bit by bit, also with the bitset itself; sizes that differ panic. |
| BitsetObject.Bitset.OrWith | simplessd/util/bitset.cc:167-177 | Bit by bit; sizes that differ panic. |
| BitsetObject.Bitset.XorWith | simplessd/util/bitset.cc:179-189 | Bit by bit; sizes that differ panic. |
| Bytes.PopCountOnes | simplessd/util/algorithm.hh:73-81 | The parallel addition of popcount gives the number of bits of a byte. |
| BitsetObject.SameBits | simplessd/util/bitset.hh:74-92 | Because the padding is zero, bits agree exactly when bytes do. |
| FifoWrite.WriteRun | simplessd/util/fifo.cc:109-232 | In any legal run of the write direction no handler finds an empty queue; requests finish once and in order of submission; the pieces sent upstream tile each request with only the last one marked last; the usage is the sum of the queued pieces and stays within the capacity while no request is split; unfinished work always has an event or a DMA outstanding; when nothing is outstanding, everything is finished. Callbacks may submit further requests before they return. |
| FifoWrite.NoLostWakeUp | simplessd/util/fifo.cc:175-232 | Unfinished work has an event scheduled or a DMA outstanding, and beginTransfer never finds an empty transfer queue. |
| FifoWrite.StepInv | simplessd/util/fifo.cc:109-232 | Every handler keeps the invariant of the direction. |
| FifoWrite.Drains | simplessd/util/fifo.cc:109-232 | Without new requests only boundedly many events happen. |
| FifoWrite.OverCapacityExactly | simplessd/util/fifo.cc:115-146 | A piece that is inserted exceeds the capacity exactly when its request has to be split and the first unit does not fit what is left. |
| FifoWrite.SplitOverruns | simplessd/util/fifo.cc:115-146 | The input: four transfer units at once into a queue of one. |
| FifoRead.ReadRun | simplessd/util/fifo.cc:234-393 | The same for the read direction, whose pieces finish only when both the DMA and the insertion of the piece are over, in either order. |
| FifoRead.NoLostWakeUp | simplessd/util/fifo.cc:288-393 | Unfinished work has an event scheduled or a DMA outstanding. |
| FifoRead.StepInv | simplessd/util/fifo.cc:234-393 | Every handler keeps the invariant; the list of half-finished pieces holds exactly those that one side has reached and the other has not. |
| FifoRead.SideDoneCore | simplessd/util/fifo.cc:288-365 | Whichever side comes second merges the piece, once. |
| FifoRead.Drains | simplessd/util/fifo.cc:234-393 | Without new requests only boundedly many events happen. |
| FifoRead.OverCapacityExactly | simplessd/util/fifo.cc:239-281 | In the read direction as well, a piece exceeds the capacity exactly when its request has to be split and the first unit does not fit what is left. |
| FifoRead.SplitOverruns | simplessd/util/fifo.cc:239-281 | The input: four transfer units at once into a read queue of one, when the DMA of the first unit is over. |
| DmaPieces.TilesCut | simplessd/util/fifo.cc:122-141 | Splitting a piece keeps the tiling of the requests. |
| DmaPieces.TilesComplete | simplessd/util/fifo.cc:206-232 | When all pieces are done, the requests that finished are all that were submitted, in order. |
| FifoObject.WriteQueue.InsertWriteDone | simplessd/util/fifo.cc:164-173 | In place; the queue takes exactly this step of the write direction, and stays valid. |
| FifoObject.WriteQueue.BeginTransfer | simplessd/util/fifo.cc:175-187 | In place; the queue takes exactly this step of the write direction, and stays valid. |
| FifoObject.WriteQueue.TransferWriteDone | simplessd/util/fifo.cc:189-232 | In place; the queue takes exactly this step of the write direction, with whatever its callback submits, and stays valid. |
| FifoObject.WriteQueue.Submit | simplessd/util/fifo.cc:408-419 | In place; the queue takes exactly this step, and stays valid; a request of no bytes is dropped. |
| FifoObject.ReadQueue.BeginTransfer | simplessd/util/fifo.cc:315-334 | In place; the queue takes exactly this step of the read direction, and stays valid. |
| FifoObject.ReadQueue.TransferReadDone | simplessd/util/fifo.cc:288-313 | In place; the queue takes exactly this step of the read direction, and stays valid. |
| FifoObject.ReadQueue.InsertReadDone | simplessd/util/fifo.cc:336-365 | In place; the queue takes exactly this step of the read direction, and stays valid. |
| FifoObject.ReadQueue.Submit | simplessd/util/fifo.cc:395-406 | In place; the queue takes exactly this step, and stays valid; a request of no bytes is dropped. |
| EventEngine.RunInv | sim/engine.cc:35-227 | Over any run the queue is sorted by tick, ties in the order of scheduling, holds each event once and only allocated ones, and time never goes back; a run stops only at an operation that names an event which is not allocated. |
| EventEngine.ApplyInv | sim/engine.cc:121-188 | The same for one operation, with the exact condition of its panic. |
| EventEngine.NextInv | sim/engine.cc:190-227 | doNextEvent never meets an unknown event and never goes back in time. |
| EventEngine.ApplyRefines | sim/engine.cc:35-227 | Each operation does to a map from events to due times what a reference scheduler does; the event handled is the earliest one. |
| EventEngine.RunRefines | sim/engine.cc:35-227 | So does every run, state by state. |
| EventEngine.NextEarliest | sim/engine.cc:190-227 | The front of the queue is due no later than any other event, and first among those of its tick. |
| EventEngine.DrainsAll | sim/engine.cc:190-227 | Without new events the whole queue is handled, in its order. |
| EngineObject.Engine.InsertEvent | sim/engine.cc:35-74 | In place; one pass finds the old entry and the new place; an event scheduled for the same tick stays. |
| EngineObject.Engine.ScheduleEvent | sim/engine.cc:121-151 | In place; succeeds exactly for allocated events. |
| EngineObject.Engine.DoNextEvent | sim/engine.cc:190-227 | In place; handles the front event unless stopped. |
| EngineObject.Engine.DeallocateEvent | sim/engine.cc:178-188 | In place; the event leaves the queue as well. |
| AddressMap.AddressInjective | simplessd/pal/pal_old.cc:182-317 | Different (superblock, unit) pairs are different flash blocks, for every allocation permutation, superblock mask and multi-plane mode. |
| AddressMap.AddressCovered | simplessd/pal/pal_old.cc:182-317 | Every block of the flash (in multi-plane mode those of plane 0) is the address of such a pair. |
| AddressMap.AddressInRange | simplessd/pal/pal_old.cc:182-317 | Addresses are in range, and the pair can be read back from them. |
| AddressMap.FromTo | simplessd/pal/pal_old.cc:186-241 | The digits taken from an index give the index back. |
| AddressMap.ToFrom | simplessd/pal/pal_old.cc:186-241 | The index of given digits is taken apart into them. |
| AddressMap.Capacities | simplessd/pal/pal.cc:33-87 | The products of the axes are the superblock count and the units of a superpage, whatever their order. |
| AddressConvert.ConvertCPDPBP | simplessd/pal/pal_old.cc:159-318 | The listed addresses are those of the flagged units in order, all of them when the flag has another size; it panics exactly for such a flag when units are mapped separately, and never for the count of units. |
| AddressConvert.FlaggedExactly | simplessd/pal/pal_old.cc:244-317 | An address is listed exactly when it is that of a flagged unit, and none is listed twice. |
| AddressConvert.TakeFreeAxes | simplessd/pal/pal_old.cc:182-242 | The loop that divides the index down leaves exactly what the striped axes determine. |
| AddressConvert.ListUnits | simplessd/pal/pal_old.cc:244-313 | The four nested loops count the units in the order of their numbers. |
| AddressConvert.ComputeSizes | simplessd/pal/pal.cc:33-87 | The multiplications of the constructor give the superblock count, the superpage size and the units of a superpage. |
| AddressConvert.Unrolled | simplessd/pal/pal.cc:33-87 | Four unrolled factors are the product over the axes. |
| AddressConvert.ParseAllocation | simplessd/pal/config.cc:207-272 | The string is accepted exactly when its letters name each axis once; plane moves to the front in multi-plane mode and the others keep their order. |
| AddressConvert.ReadLetters | simplessd/pal/config.cc:207-253 | The four letters are read in order; a letter that comes twice or is missing fails. |
| AddressConvert.MovePlaneFirst | simplessd/pal/config.cc:255-268 | The in-place shift moves plane to the front. |
| PrpList.PRP.constructor | sil/nvme/prp.cc:32-120 | For every size, walking PRP1 and PRP2 by section 4.3 of NVM Express 1.3 yields exactly the data pages; capacity and page list are as stated. |
| PrpList.PagesApart | sil/nvme/prp.cc:32-120 | The pages are as many as the size takes, aligned, distinct, inside the allocation, and none is a list page. |
| PrpList.WalkLaid | sil/nvme/prp.cc:95-118 | A chain of lists laid out as stated is walked page by page, over any number of lists. |
| PrpList.BuiltWalk | sil/nvme/prp.cc:95-118 | What the loop has written is walked as the data pages, in order. |
| PrpList.PRP.BuildLists | sil/nvme/prp.cc:95-118 | The loop fills and links all lists, ends exactly at the end of the allocation, and its terminator overwrites no entry, even behind a full list. |
| DramCycles.CyclesConserved | lib/drampower/src/MemoryPowerModel.cc:181-185 | Over any legal trace, cut into windows anywhere, the cycles of all windows add up to the cycle up to which the state accounts, and to the timestamp of an END command not before it. |
| DramCycles.HandleInv | lib/drampower/src/CmdHandlers.cc:59-569 | Every command that comes in its mode, and not before the cycle that is accounted for already, keeps the account exact. |
| DramCycles.HandleExactly | lib/drampower/src/CmdHandlers.cc:59-369 | For the commands outside self-refresh, coming too early is exactly what breaks the account. |
| DramCycles.SRExInv | lib/drampower/src/CmdHandlers.cc:371-569 | Leaving self-refresh keeps the account exact in each of its cases, with windows that have ended in any part of it. |
| DramCycles.EndCycles | lib/drampower/src/CmdHandlers.cc:572-627 | END accounts for all cycles up to its timestamp, or keeps a later frontier. |
| DramCycles.EndWindowInv | lib/drampower/src/CommandAnalysis.cc:92-153 | A window may end anywhere, also inside a self-refresh or a refresh. |
| DramCycles.EarlyExitEnd | lib/drampower/src/CmdHandlers.cc:497-558 | Leaving self-refresh early schedules the end of its refresh, exactly unless a window ended in the precharge part. |
| DramCycles.EarlyExitAccount | lib/drampower/src/CmdHandlers.cc:497-558 | The input: how many cycles too many are scheduled, for each place of the window. |
| DramObject.CommandAnalysis.HandleSREx | lib/drampower/src/CmdHandlers.cc:371-569 | In place; all fields of the account change as in DramCycles, and the account stays exact. |
| DramObject.CommandAnalysis.HandleNopEnd | lib/drampower/src/CmdHandlers.cc:572-627 | In place; all fields of the account change as in DramCycles; with what earlier windows counted, the counters add up to the timestamp or to a later frontier. |
| DramObject.CommandAnalysis.HandleRef | lib/drampower/src/CmdHandlers.cc:111-134 | In place; all fields of the account change as in DramCycles, and the account stays exact. |
| DramObject.CommandAnalysis.HandlePre | lib/drampower/src/CmdHandlers.cc:154-186 | In place; all fields of the account change as in DramCycles, and the account stays exact. |
| DramObject.CommandAnalysis.HandleAct | lib/drampower/src/CmdHandlers.cc:59-83 | In place; all fields of the account change as in DramCycles, and the account stays exact. |
| DramObject.CommandAnalysis.EndWindow | lib/drampower/src/libdrampower/LibDRAMPower.cc:86-93 | In place; all fields of the account change as in DramCycles, and the account stays exact. |
| WriteCache.GenericCache.Write | simplessd/icl/generic_cache.cc:548-720 | After any write the newest version of every address is in a valid dirty line or in the FTL; "Cache corrupted!" is unreachable; the result says whether it was a hit or a way was free. |
| WriteCache.GenericCache.EvictCache | simplessd/icl/generic_cache.cc:305-345 | Every selected line is written back and freed, no other line changes, and nothing is lost. |
| WriteCache.GenericCache.EvictLine | simplessd/icl/generic_cache.cc:312-340 | A dirty line is written to the logical page and unit of its own address. |
| WriteCache.GenericCache.MakeRoom | simplessd/icl/generic_cache.cc:640-708 | When all ways of a set are in use, the eviction frees one of them, in superpage mode as well. |
| WriteCache.GenericCache.GetEmptyWay | simplessd/icl/generic_cache.cc:233-253 | The way that was inserted first among the invalid ones, or none exactly when all are valid. |
| WriteCache.GenericCache.GetValidWay | simplessd/icl/generic_cache.cc:255-272 | The way that holds the address, or none exactly when there is none. |
| WriteCache.OneLine | simplessd/icl/generic_cache.cc:222-272 | An address has at most one valid line in the whole cache, in its own set, with the newest data; a clean line agrees with the FTL. |
| BusyTime.BusyExactly | simplessd/hil/hil.cc:181-194 | For any requests the busy time is at most the size of the union of their intervals, and equal to it exactly when no request begins in a part of an earlier span that no interval covers. |
| BusyTime.BusyIsUnion | simplessd/hil/hil.cc:181-194 | For requests in the order of their begins, as the host layer reports them, it is the size of the union. |
| BusyTime.BackwardIsMissed | simplessd/hil/hil.cc:181-194 | The input: the intervals 10 to 20 and 0 to 5 count as 10 ticks, and their union has 15. |
| HostCompletion.RunConserves | simplessd/hil/hil.cc:196-222 | Over any run, what was delivered and what is queued are together exactly what was requested: no completion is delivered twice and none is dropped. |
| HostCompletion.StepAwake | simplessd/hil/hil.cc:196-222 | A queued completion keeps its event scheduled, except exactly when a request is queued alone and finishes at the tick that was scheduled last. |
| HostCompletion.StuckForever | simplessd/hil/hil.cc:196-222 | Once its finish is past, nothing is ever delivered again, whatever is requested. |
| HostCompletion.RunAwake | simplessd/hil/hil.cc:196-222 | A run without such a request keeps its completions scheduled. |
| HostCompletion.FireDelivers | simplessd/hil/hil.cc:205-222 | The event, when it comes, delivers the earliest completion. |
| HostCompletion.SecondIsLost | simplessd/hil/hil.cc:196-203 | The input: two requests that finish at one tick, the second one submitted after the first was delivered. |
| HostInterface.HIL.UpdateBusyTime | simplessd/hil/hil.cc:181-194 | In place; each of the three counters is the size of the union of what was reported to it. |
| HostInterface.HIL.Request | simplessd/hil/hil.cc:41-102 | In place; the counters, the queue, and whether the completion stays scheduled. |
| HostInterface.HIL.Completion | simplessd/hil/hil.cc:205-222 | In place; the completion queue takes exactly this step; the counters stay. |
| BloomFilter.Filter.Contains | simplessd/ftl/bloom_filter.hh:303-319 | True exactly when all bits of the key are set; never false for an inserted key. |
| BloomFilter.Filter.Insert | simplessd/ftl/bloom_filter.hh:260-272 | The key is found afterwards, and so are all earlier ones; exactly the bits of the key are added to the table. |
| BloomFilter.Filter.Union | simplessd/ftl/bloom_filter.hh:413-430 | Keys stay; those of the other filter are found too when it was compressed in the same steps; the table becomes the bitwise or; it reads behind the other table exactly when that one is smaller. |
| BloomFilter.Filter.Compress | simplessd/ftl/bloom_filter.hh:656-703 | Keys stay over any chain of compressions that keep half of the table; removing more writes behind the new table, exactly then. |
| BloomFilter.FoldKeeps | simplessd/ftl/bloom_filter.hh:683-697 | A set bit is found where the folded table is asked for it. |
| BloomFilter.FoldMembers | simplessd/ftl/bloom_filter.hh:707-717 | All keys of a table are found in the folded one under the extended list of sizes. |
| BloomFilter.UnionOfCompressed | simplessd/ftl/bloom_filter.hh:413-430 | The input: a filter of 16 bits and one that was compressed to 8. |
| BloomFilter.UnionOfDifferentSteps | simplessd/ftl/bloom_filter.hh:413-430 | The input: two filters of 48 bits, compressed to 24 at once and by way of 32; a key of the second one is not found in their union. |
| BloomFilter.CompressToQuarter | simplessd/ftl/bloom_filter.hh:656-703 | The input: three quarters of 32 bits removed. |

## Left out

- PageMapping: the containers of class PageMapping hold block values, not objects of class Block; the two block representations are proved against the same abstract block but not put under this class, so moves, references into the containers and iterator invalidation are not modelled. The same holds for the bitsets of blocks and requests.
- FtlWritePoints.RunKeepsPoints: goes one way; a lost write point stops a later write only if the rotation comes back to it before its block is in use again. The exact condition is that of each collection.
- FtlWritePoints.NoPointLost: goes one way, for the same reason.
- BloomFilter.Filter.Union: which keys of the other filter survive when it was compressed in other steps is not said; UnionOfDifferentSteps shows that one need not.
- WriteCache.GenericCache.GetEmptyWay: the largest 64-bit tick as insertion time, which the source cannot tell from no way at all, is not modelled.
- DramCycles.EndWindowInv: windows that end at cycle 0, and commands at the same cycle after the end of a window, are not modelled.
- HostInterface.HIL.Completion: callbacks do not submit requests before they return.
- EngineObject.Engine.DoNextEvent: what a handler does follows as further operations of the run; the mutex, the printed statistics and the call of a handler that was deallocated are not modelled.
- VictimSelection.CalculateVictimWeight: the cost-benefit weight is left out; it divides by the time since the last access.
- VictimSelection.SelectLightest: GC mode 1, which computes the number of blocks from a ratio, is left out; the theorems about collections hold for any distinct full victims.
- PageMapping.PageMapping.SelectVictimBlock: chooses by the greedy policy or the one weighted by refreshed pages; the drawing policies are RandomSelection.SelectDrawn, outside this class.
- FtlCopies.BitmapNeverCorrupted: goes one way; which runs reach the panic with more queues or smaller drains depends on the error model.
- WriteCache.GenericCache.EvictCache: only the call that frees the lines is modelled, not the flush that keeps them.
- HostInterface.HIL.Request: the numbers of requests and bytes are not counted.
- The read-before-write of partial pages when units are not mapped separately: it only costs time in the source, and a write of any unit replaces the data of the page.
- Hot/cold separation, format, the refresh modes 2 and 3 (they never record a queue), and the refresh of whole blocks.
- The filling of the flash at start-up (initialize) as a procedure: it is a run of host writes.
- Time: latencies, PAL and DRAM calls, the batching of flash operations in a collection, and all statistics but those named.
- Floating-point rounding of the free-block ratio, the weights and the compression percentage: they are reals.
- Integer widths, apart from the 32-bit distance of queue numbers and the bytes of the bitset and the Bloom filter.
- In the FIFO, the ticks of events: an event is scheduled or not, and scheduled ones come in any order. The DMA above completes asynchronously.
- Of the generic cache: reading, prefetching, flush, trim, format and latencies.
- Of the PRP list: reading and writing data through it, and a failed allocation; its address is a parameter.
- DramObject.CommandAnalysis.HandleSREx: the power-up cycles and the latest precharge cycle are not kept.
- DramObject.CommandAnalysis.HandleNopEnd: the counters per bank and of idle cycles are not kept.
- DramObject.CommandAnalysis.HandleRef: the number of refreshes and the counters per bank and of idle cycles are not kept.
- DramObject.CommandAnalysis.HandlePre: the counters per bank and of idle cycles are not kept.
- DramObject.CommandAnalysis.HandleAct: the counters per bank and of idle cycles are not kept.
- DramObject.CommandAnalysis.EndWindow: the energy between the two steps is not computed.
- Of the DRAM power model otherwise: read/write counters, the scheduler of implicit commands, and energy.
- Of the Bloom filter: the hash function (any function of key and salt), intersection and symmetric difference, and the generation of salts.
- Of pal_old.cc: everything behind the conversion of addresses. Axes that a superblock does not stripe run loops of one pass in the model.
- Of the bitset: copying and moving; resetting one bit is setting it to false.
- EventEngine: stamps that order events of one tick exist in the model only.

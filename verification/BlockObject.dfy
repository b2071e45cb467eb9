/** Class Block of ftl/common/block.cc, updated in place and proved against FlashBlock. */
module BlockObject {
  import opened Outcome
  import opened FlashBlock

  /** A bitset over the pages, read as one row of a single unit per page. */
  function Column<T>(s: seq<T>): (r: seq<seq<T>>)
    ensures |r| == |s| && forall p :: 0 <= p < |s| ==> r[p] == [s[p]]
  {
    seq(|s|, p requires 0 <= p < |s| => [s[p]])
  }

  lemma ColumnUpdate<T>(s: seq<T>, p: nat, x: T)
    requires p < |s|
    ensures Column(s[p := x]) == Set2(Column(s), p, 0, x)
  {
    assert [s[p]][0 := x] == [x];
  }

  lemma ColumnFilled<T>(s: seq<T>, x: T)
    requires forall p :: 0 <= p < |s| ==> s[p] == x
    ensures Column(s) == Filled(|s|, 1, x)
  {
    forall p | 0 <= p < |s| ensures Column(s)[p] == Filled(|s|, 1, x)[p] {
      assert Filled(|s|, 1, x)[p] == [x];
    }
  }

  class Block {
    const idx: nat
    const pageCount: nat
    const ioUnitInPage: nat

    var nextWritePageIndex: seq<nat>

    // used when ioUnitInPage == 1
    var pageValid: seq<bool>
    var pageErased: seq<bool>
    var pageLpns: seq<nat>

    // used when ioUnitInPage > 1
    var unitValid: seq<seq<bool>>
    var unitErased: seq<seq<bool>>
    var unitLpns: seq<seq<nat>>

    ghost var contents: seq<seq<nat>>
    var eraseCount: nat
    var refreshedPageCount: nat

    ghost function View(): BlockView
      reads this
    {
      if ioUnitInPage == 1 then
        BlockView(idx, Column(pageValid), Column(pageErased), Column(pageLpns), contents, nextWritePageIndex, eraseCount,
                  refreshedPageCount)
      else
        BlockView(idx, unitValid, unitErased, unitLpns, contents, nextWritePageIndex, eraseCount, refreshedPageCount)
    }

    ghost predicate Valid()
      reads this
    {
      0 < ioUnitInPage && BlockOk(View(), pageCount, ioUnitInPage)
    }

    /** Every page is erased; the erase count starts at initial. */
    constructor (blockIdx: nat, count: nat, ioUnit: nat, initial: nat)
      requires 0 < ioUnit
      ensures idx == blockIdx && pageCount == count && ioUnitInPage == ioUnit
      ensures Valid() && View() == New(blockIdx, count, ioUnit, initial)
    {
      idx, pageCount, ioUnitInPage := blockIdx, count, ioUnit;
      pageValid, pageErased, pageLpns := seq(count, _ => false), seq(count, _ => true), seq(count, _ => 0);
      unitValid, unitErased := Filled(count, ioUnit, false), Filled(count, ioUnit, true);
      unitLpns := Filled(count, ioUnit, 0);
      contents := Filled(count, ioUnit, 0);
      nextWritePageIndex := seq(ioUnit, _ => 0);
      eraseCount, refreshedPageCount := initial, 0;
      new;
      if ioUnit == 1 {
        ColumnFilled(pageValid, false);
        ColumnFilled(pageErased, true);
        ColumnFilled(pageLpns, 0);
      }
    }

    /** Program a slot; d is what the flash then holds. */
    method Write(pageIndex: nat, lpn: nat, u: nat, ghost d: nat) returns (r: Result<()>)
      requires Valid()
      modifies this
      ensures var w := FlashBlock.Write(old(View()), pageIndex, lpn, u, d, pageCount, ioUnitInPage);
        && r == w.Status()
        && (r.Ok? ==> View() == w.value)
        && (r.Panic? ==> View() == old(View()))
    {
      if pageIndex >= pageCount || u >= ioUnitInPage {
        return Panic(OutOfRange);
      }
      var write := if ioUnitInPage == 1 then pageErased[pageIndex] else unitErased[pageIndex][u];
      if !write {
        return Panic(WriteNotErased);
      }
      if pageIndex < nextWritePageIndex[u] {
        return Panic(WriteNotSequential);
      }
      if ioUnitInPage == 1 {
        ColumnUpdate(pageErased, pageIndex, false);
        ColumnUpdate(pageValid, pageIndex, true);
        ColumnUpdate(pageLpns, pageIndex, lpn);
        pageErased := pageErased[pageIndex := false];
        pageValid := pageValid[pageIndex := true];
        pageLpns := pageLpns[pageIndex := lpn];
      } else {
        unitErased := Set2(unitErased, pageIndex, u, false);
        unitValid := Set2(unitValid, pageIndex, u, true);
        unitLpns := Set2(unitLpns, pageIndex, u, lpn);
      }
      contents := Set2(contents, pageIndex, u, d);
      nextWritePageIndex := nextWritePageIndex[u := pageIndex + 1];
      return Ok(());
    }

    method Invalidate(pageIndex: nat, u: nat)
      requires Valid() && pageIndex < pageCount && u < ioUnitInPage
      modifies this
      ensures Valid() && View() == FlashBlock.Invalidate(old(View()), pageIndex, u, pageCount, ioUnitInPage)
    {
      if ioUnitInPage == 1 {
        ColumnUpdate(pageValid, pageIndex, false);
        pageValid := pageValid[pageIndex := false];
      } else {
        unitValid := Set2(unitValid, pageIndex, u, false);
      }
    }

    method Erase()
      requires Valid()
      modifies this
      ensures Valid() && View() == FlashBlock.Erase(old(View()), pageCount, ioUnitInPage)
    {
      if ioUnitInPage == 1 {
        pageValid := seq(pageCount, _ => false);
        pageErased := seq(pageCount, _ => true);
        ColumnFilled(pageValid, false);
        ColumnFilled(pageErased, true);
      } else {
        unitValid := Filled(pageCount, ioUnitInPage, false);
        unitErased := Filled(pageCount, ioUnitInPage, true);
      }
      nextWritePageIndex := seq(ioUnitInPage, _ => 0);
      eraseCount := eraseCount + 1;
    }

    method SetRefreshedPageCount(n: nat)
      requires Valid()
      modifies this
      ensures Valid() && View() == old(View()).(refreshed := n)
    {
      refreshedPageCount := n;
    }

    /** The tags and valid bits of a page, and whether any unit is valid. */
    method GetPageInfo(pageIndex: nat, mapSize: nat) returns (r: Result<bool>, lpns: seq<nat>, bits: seq<bool>)
      requires Valid() && pageIndex < pageCount
      ensures r.Panic? <==> mapSize != ioUnitInPage
      ensures r.Panic? ==> r.why == SizeMismatch
      ensures r.Ok? ==> lpns == View().lpns[pageIndex] && bits == View().valid[pageIndex] && r.value == Any(bits)
    {
      if ioUnitInPage == 1 && mapSize == 1 {
        bits := [pageValid[pageIndex]];
        lpns := [pageLpns[pageIndex]];
      } else if mapSize == ioUnitInPage {
        bits := unitValid[pageIndex];
        lpns := unitLpns[pageIndex];
      } else {
        return Panic(SizeMismatch), [], [];
      }
      var any := false;
      for u := 0 to |bits|
        invariant any == Any(bits[..u])
      {
        assert bits[..u + 1] == bits[..u] + [bits[u]];
        any := any || bits[u];
      }
      assert bits[..|bits|] == bits;
      r := Ok(any);
    }

    /** The largest next page over the units. */
    method GetNextWritePageIndex() returns (next: nat)
      requires Valid()
      ensures next == NextPage(View())
    {
      next := 0;
      for u := 0 to ioUnitInPage
        invariant next == MaxOf(nextWritePageIndex[..u])
      {
        assert nextWritePageIndex[..u + 1][..u] == nextWritePageIndex[..u];
        if next < nextWritePageIndex[u] {
          next := nextWritePageIndex[u];
        }
      }
      assert nextWritePageIndex[..ioUnitInPage] == nextWritePageIndex;
    }

    /** Pages with a valid unit */
    method GetValidPageCount() returns (n: nat)
      requires Valid()
      ensures n == CountPages(View().valid)
    {
      hide CountPages, Any;
      ghost var v := View().valid;
      n := 0;
      PagesNone();
      for p := 0 to pageCount
        invariant n == CountPages(v[..p])
      {
        PagesNext(v, p);
        var any, _, _ := GetPageInfo(p, ioUnitInPage);
        if any.value {
          n := n + 1;
        }
      }
      assert v[..pageCount] == v;
    }

    /** Valid units over all pages */
    method GetValidPageCountRaw() returns (n: nat)
      requires Valid()
      ensures n == CountAll(View().valid)
    {
      hide CountAll, Count, Any;
      ghost var v := View().valid;
      n := 0;
      PagesNone();
      for p := 0 to pageCount
        invariant n == CountAll(v[..p])
      {
        PagesNext(v, p);
        var _, _, bits := GetPageInfo(p, ioUnitInPage);
        var k := CountBits(bits);
        n := n + k;
      }
      assert v[..pageCount] == v;
    }
  }

  lemma PagesNone()
    ensures CountPages([]) == 0 && CountAll([]) == 0
  {
  }

  lemma PagesNext(v: seq<seq<bool>>, p: nat)
    requires p < |v|
    ensures CountPages(v[..p + 1]) == CountPages(v[..p]) + if Any(v[p]) then 1 else 0
    ensures CountAll(v[..p + 1]) == CountAll(v[..p]) + Count(v[p])
  {
    assert v[..p + 1][..p] == v[..p];
  }

  method CountBits(bits: seq<bool>) returns (n: nat)
    ensures n == Count(bits)
  {
    n := 0;
    for u := 0 to |bits|
      invariant n == Count(bits[..u])
    {
      assert bits[..u + 1][..u] == bits[..u];
      if bits[u] {
        n := n + 1;
      }
    }
    assert bits[..|bits|] == bits;
  }
}

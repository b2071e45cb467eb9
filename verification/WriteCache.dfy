/** The write path of the set-associative cache above the FTL (icl/generic_cache.cc), with write
    caching on and nothing else entering the cache. */
module WriteCache {
  import opened Arithmetic
  import opened Outcome

  /** data stands for what the host wrote last into the line; the source keeps no data. */
  datatype Line = Line(tag: nat, lastAccessed: nat, insertedAt: nat, dirty: bool, valid: bool, data: nat)

  /** A pointer to a cache line: its set and its way. */
  datatype Position = Null | At(setIdx: nat, wayIdx: nat)

  datatype Policy = RandomChoice | Fifo | LeastRecentlyUsed

  /** Row and column of a line in the eviction matrix: the row is the line's unit in its superpage. */
  lemma IoPosition(lca: nat, n: nat, parallel: nat)
    requires 0 < n && 0 < parallel
    ensures 0 < n * parallel
    ensures var tmp := lca % (n * parallel); tmp % n == lca % n && tmp / n < parallel
  {
    Positive(n, parallel);
    var tmp := lca % (n * parallel);
    Nested(lca, n, parallel, lca / (n * parallel), tmp, tmp / n, tmp % n);
  }

  class GenericCache {
    const setSize: nat
    const waySize: nat
    const lineCountInSuperPage: nat
    const parallelIO: nat
    const policy: Policy
    const superPageMode: bool  // evictMode == MODE_SUPERPAGE
    const cacheData: array2<Line>
    const evictData: array2<Position>
    ghost var newest: map<nat, nat>  // what the host wrote last, by address
    ghost var stored: map<nat, nat>  // what the FTL holds, by address

    // ---- Invariant ----

    ghost predicate Shape()
      reads this
    {
      && 0 < setSize && 0 < waySize && 0 < lineCountInSuperPage && 0 < parallelIO
      && cacheData.Length0 == setSize && cacheData.Length1 == waySize
      && evictData.Length0 == lineCountInSuperPage && evictData.Length1 == parallelIO
    }

    /** A valid line is in its own set, is the only one of its address, and holds what was written last. */
    ghost predicate LinesOk()
      requires Shape()
      reads this, cacheData
    {
      forall s, w :: 0 <= s < setSize && 0 <= w < waySize && cacheData[s, w].valid ==> LineOk(s, w)
    }

    ghost predicate LineOk(s: nat, w: nat)
      requires Shape() && s < setSize && w < waySize
      reads this, cacheData
    {
      var line := cacheData[s, w];
      && line.tag % setSize == s
      && line.tag in newest && line.data == newest[line.tag]
      && forall w' :: 0 <= w' < waySize && w' != w && cacheData[s, w'].valid ==> cacheData[s, w'].tag != line.tag
    }

    ghost predicate InDirtyLine(lca: nat)
      requires Shape()
      reads this, cacheData
    {
      exists w :: 0 <= w < waySize
        && cacheData[lca % setSize, w].valid && cacheData[lca % setSize, w].dirty && cacheData[lca % setSize, w].tag == lca
    }

    /** What was written last is in a dirty line, or the FTL has it already. */
    ghost predicate NothingLost()
      requires Shape()
      reads this, cacheData
    {
      forall lca :: lca in newest ==> InDirtyLine(lca) || (lca in stored && stored[lca] == newest[lca])
    }

    ghost predicate CacheOk()
      reads this, cacheData
    {
      Shape() && LinesOk() && NothingLost()
    }

    ghost predicate NothingSelected()
      requires Shape()
      reads this, evictData
    {
      forall r, c :: 0 <= r < lineCountInSuperPage && 0 <= c < parallelIO ==> evictData[r, c] == Null
    }

    ghost predicate Valid()
      reads this, cacheData, evictData
    {
      CacheOk() && NothingSelected()
    }

    constructor (cacheSize: nat, lineSize: nat, ways: nat, lineCount: nat, parallel: nat, policy: Policy, superPageMode: bool)
      requires 0 < lineSize && 0 < lineCount && 0 < parallel
      ensures Valid() && newest == map[] && stored == map[]
      ensures fresh(cacheData) && fresh(evictData)
      ensures waySize == (if ways > 0 then ways else if cacheSize / lineSize > 1 then cacheSize / lineSize else 1)
      ensures ways == 0 ==> setSize == 1
    {
      var lines := cacheSize / lineSize;
      var sets, perSet := 1, if lines > 1 then lines else 1;
      if ways != 0 {
        sets, perSet := if lines / ways > 1 then lines / ways else 1, ways;
      }
      setSize, waySize := sets, perSet;
      lineCountInSuperPage, parallelIO := lineCount, parallel;
      this.policy, this.superPageMode := policy, superPageMode;
      cacheData := new Line[sets, perSet]((_, _) => Line(0, 0, 0, false, false, 0));
      evictData := new Position[lineCount, parallel]((_, _) => Null);
      newest, stored := map[], map[];
    }

    // ---- Lookup ----

    /** Among the invalid ways the one that was inserted first, or waySize when all are valid. */
    method GetEmptyWay(setIdx: nat) returns (retIdx: nat)
      requires Shape() && setIdx < setSize
      ensures retIdx <= waySize
      ensures retIdx < waySize ==> !cacheData[setIdx, retIdx].valid
      ensures retIdx < waySize ==> forall w :: 0 <= w < waySize && !cacheData[setIdx, w].valid ==>
        cacheData[setIdx, retIdx].insertedAt <= cacheData[setIdx, w].insertedAt
      ensures retIdx == waySize <==> forall w :: 0 <= w < waySize ==> cacheData[setIdx, w].valid
    {
      retIdx := waySize;
      var minInsertedAt := 0;
      for wayIdx := 0 to waySize
        invariant retIdx == waySize || retIdx < wayIdx
        invariant retIdx == waySize <==> forall w :: 0 <= w < wayIdx ==> cacheData[setIdx, w].valid
        invariant retIdx < waySize ==> !cacheData[setIdx, retIdx].valid && minInsertedAt == cacheData[setIdx, retIdx].insertedAt
        invariant retIdx < waySize ==> forall w :: 0 <= w < wayIdx && !cacheData[setIdx, w].valid ==>
          minInsertedAt <= cacheData[setIdx, w].insertedAt
      {
        var line := cacheData[setIdx, wayIdx];
        if !line.valid && (retIdx == waySize || minInsertedAt > line.insertedAt) {
          minInsertedAt := line.insertedAt;
          retIdx := wayIdx;
        }
      }
    }

    method GetValidWay(lca: nat) returns (wayIdx: nat)
      requires Shape()
      ensures wayIdx <= waySize
      ensures wayIdx < waySize ==> cacheData[lca % setSize, wayIdx].valid && cacheData[lca % setSize, wayIdx].tag == lca
      ensures wayIdx == waySize ==> forall w :: 0 <= w < waySize ==>
        !(cacheData[lca % setSize, w].valid && cacheData[lca % setSize, w].tag == lca)
    {
      wayIdx := 0;
      while wayIdx < waySize
        invariant wayIdx <= waySize
        invariant forall w :: 0 <= w < wayIdx ==>
          !(cacheData[lca % setSize, w].valid && cacheData[lca % setSize, w].tag == lca)
      {
        var line := cacheData[lca % setSize, wayIdx];
        if line.valid && line.tag == lca {
          return;
        }
        wayIdx := wayIdx + 1;
      }
    }

    /** The less worthy of two lines, by the eviction policy. */
    method Compare(a: Position, b: Position) returns (r: Position)
      requires Shape() && InCache(a) && InCache(b)
      ensures r == a || r == b
      ensures a != Null || b != Null ==> r != Null
      ensures a.At? && b.At? && policy == Fifo ==>
        r == if cacheData[a.setIdx, a.wayIdx].insertedAt < cacheData[b.setIdx, b.wayIdx].insertedAt then a else b
      ensures a.At? && b.At? && policy == LeastRecentlyUsed ==>
        r == if cacheData[a.setIdx, a.wayIdx].lastAccessed < cacheData[b.setIdx, b.wayIdx].lastAccessed then a else b
    {
      if a.At? && b.At? {
        match policy {
          case RandomChoice => if * { r := a; } else { r := b; }
          case Fifo => r := if cacheData[a.setIdx, a.wayIdx].insertedAt < cacheData[b.setIdx, b.wayIdx].insertedAt then a else b;
          case LeastRecentlyUsed =>
            r := if cacheData[a.setIdx, a.wayIdx].lastAccessed < cacheData[b.setIdx, b.wayIdx].lastAccessed then a else b;
        }
      } else if a.At? {
        r := a;
      } else {
        r := b;
      }
    }

    ghost predicate InCache(p: Position)
      requires Shape()
      reads this
    {
      p.At? ==> p.setIdx < setSize && p.wayIdx < waySize
    }

    // ---- Eviction ----

    /** The line may stand in row r of the matrix. */
    ghost predicate Fits(p: Position, r: nat)
      requires Shape()
      reads this, cacheData
    {
      p.At? ==>
        && InCache(p)
        && (cacheData[p.setIdx, p.wayIdx].valid ==> cacheData[p.setIdx, p.wayIdx].tag % lineCountInSuperPage == r)
    }

    ghost predicate SelectionFits()
      requires Shape()
      reads this, cacheData, evictData
    {
      forall r, c :: 0 <= r < lineCountInSuperPage && 0 <= c < parallelIO ==> Fits(evictData[r, c], r)
    }

    ghost predicate IsValid(p: Position)
      requires Shape()
      reads this, cacheData
    {
      p.At? ==> InCache(p) && cacheData[p.setIdx, p.wayIdx].valid
    }

    /** Only valid lines are selected, each in the row of its unit. */
    ghost predicate SelectionOk()
      requires Shape()
      reads this, cacheData, evictData
    {
      && SelectionFits()
      && forall r, c :: 0 <= r < lineCountInSuperPage && 0 <= c < parallelIO ==> IsValid(evictData[r, c])
    }

    method SetCell(row: nat, col: nat, p: Position)
      requires Shape() && row < lineCountInSuperPage && col < parallelIO && SelectionOk() && Fits(p, row) && IsValid(p)
      modifies evictData
      ensures SelectionOk() && evictData[row, col] == p
      ensures forall r, c :: 0 <= r < lineCountInSuperPage && 0 <= c < parallelIO && !(r == row && c == col) ==>
        evictData[r, c] == old(evictData[r, c])
    {
      evictData[row, col] := p;
    }

    method CalcIOPosition(lca: nat) returns (row: nat, col: nat)
      requires Shape()
      ensures row == lca % lineCountInSuperPage && row < lineCountInSuperPage && col < parallelIO
    {
      IoPosition(lca, lineCountInSuperPage, parallelIO);
      var tmp := lca % (lineCountInSuperPage * parallelIO);
      row := tmp % lineCountInSuperPage;
      col := tmp / lineCountInSuperPage;
    }

    /** One line for every cell of the matrix, of all valid lines. */
    method SelectLines()
      requires Valid()
      modifies evictData
      ensures SelectionOk()
    {
      for s := 0 to setSize
        invariant SelectionOk()
      {
        for w := 0 to waySize
          invariant SelectionOk()
        {
          if cacheData[s, w].valid {
            var row, col := CalcIOPosition(cacheData[s, w].tag);
            assert Fits(evictData[row, col], row);
            var chosen := Compare(evictData[row, col], At(s, w));
            SetCell(row, col, chosen);
          }
        }
      }
    }

    /** A superpage is evicted as a whole: every row keeps one line. */
    method CollapseRows()
      requires CacheOk() && SelectionOk()
      modifies evictData
      ensures SelectionOk()
    {
      for row := 0 to lineCountInSuperPage
        invariant SelectionOk()
      {
        for col := 0 to parallelIO - 1
          invariant SelectionOk()
        {
          assert Fits(evictData[row, col], row) && Fits(evictData[row, col + 1], row);
          var chosen := Compare(evictData[row, col], evictData[row, col + 1]);
          SetCell(row, col + 1, chosen);
          SetCell(row, col, Null);
        }
      }
    }

    ghost predicate Targets(r: nat, c: nat, target: nat)
      requires Shape() && r < lineCountInSuperPage && c < parallelIO
      reads this, cacheData, evictData
    {
      var p := evictData[r, c];
      p.At? && InCache(p) && p.setIdx == target
    }

    /** If nothing of the target set is selected, a line of it is. */
    method EnsureTarget(target: nat) returns (row: nat, col: nat)
      requires CacheOk() && SelectionOk() && target < setSize
      requires forall w :: 0 <= w < waySize ==> cacheData[target, w].valid
      modifies evictData
      ensures SelectionOk() && row < lineCountInSuperPage && col < parallelIO && Targets(row, col, target)
    {
      for r := 0 to lineCountInSuperPage
        invariant SelectionOk()
      {
        for c := 0 to parallelIO
          invariant SelectionOk()
        {
          var p := evictData[r, c];
          if p.At? && cacheData[p.setIdx, p.wayIdx].tag % setSize == target {
            assert LineOk(p.setIdx, p.wayIdx);
            return r, c;
          }
        }
      }
      var p := Null;
      for w := 0 to waySize
        invariant SelectionOk()
        invariant p.At? ==> p.setIdx == target && p.wayIdx < waySize
        invariant w > 0 ==> p.At?
      {
        if cacheData[target, w].valid {
          p := Compare(p, At(target, w));
        }
      }
      row, col := CalcIOPosition(cacheData[p.setIdx, p.wayIdx].tag);
      SetCell(row, col, p);
    }

    /** pFTL->write: one unit of a logical page.  The time that it takes is arbitrary. */
    method FtlWrite(lpn: nat, unit: nat, data: nat, tick: nat) returns (finished: nat)
      requires Shape() && unit < lineCountInSuperPage
      modifies `stored
      ensures stored == old(stored)[lpn * lineCountInSuperPage + unit := data] && tick <= finished
    {
      stored := stored[lpn * lineCountInSuperPage + unit := data];
      finished :| tick <= finished;
    }

    /** The line is freed; what was written last to its address is in the FTL. */
    method FreeLine(setIdx: nat, wayIdx: nat, tick: nat)
      requires CacheOk() && setIdx < setSize && wayIdx < waySize
      requires var line := cacheData[setIdx, wayIdx];
        line.valid && line.dirty ==> line.tag in newest && line.tag in stored && stored[line.tag] == newest[line.tag]
      modifies cacheData
      ensures CacheOk() && !cacheData[setIdx, wayIdx].valid
      ensures forall s, w :: 0 <= s < setSize && 0 <= w < waySize && !(s == setIdx && w == wayIdx) ==>
        cacheData[s, w] == old(cacheData[s, w])
    {
      cacheData[setIdx, wayIdx] := cacheData[setIdx, wayIdx].(
        valid := false, tag := 0, insertedAt := tick, lastAccessed := tick, dirty := false);
      forall lca | lca in newest
        ensures InDirtyLine(lca) || (lca in stored && stored[lca] == newest[lca])
      {
        if old(InDirtyLine(lca)) {
          var w :| 0 <= w < waySize && old(cacheData[lca % setSize, w].valid && cacheData[lca % setSize, w].dirty)
            && old(cacheData[lca % setSize, w].tag) == lca;
          assert !(lca % setSize == setIdx && w == wayIdx) ==>
            cacheData[lca % setSize, w] == old(cacheData[lca % setSize, w]);
        }
      }
    }

    /** One cell of the matrix: the line is written back under its own address, and freed. */
    method EvictLine(row: nat, col: nat, tick: nat)
      requires CacheOk() && row < lineCountInSuperPage && col < parallelIO && Fits(evictData[row, col], row)
      modifies this`stored, cacheData, evictData
      ensures CacheOk() && evictData[row, col] == Null
      ensures forall r, c :: 0 <= r < lineCountInSuperPage && 0 <= c < parallelIO && !(r == row && c == col) ==>
        evictData[r, c] == old(evictData[r, c])
      ensures forall s, w :: 0 <= s < setSize && 0 <= w < waySize ==>
        if old(evictData[row, col]) == At(s, w) then !cacheData[s, w].valid else cacheData[s, w] == old(cacheData[s, w])
    {
      hide LinesOk, NothingLost, Fits;
      var p := evictData[row, col];
      if p == Null {
        return;
      }
      FitsInCache(p, row);
      var beginAt := WriteBack(p.setIdx, p.wayIdx, row, tick);
      FreeLine(p.setIdx, p.wayIdx, beginAt);
      evictData[row, col] := Null;
    }

    lemma FitsInCache(p: Position, row: nat)
      requires CacheOk() && Fits(p, row) && p.At?
      ensures Shape() && p.setIdx < setSize && p.wayIdx < waySize
      ensures cacheData[p.setIdx, p.wayIdx].valid ==> cacheData[p.setIdx, p.wayIdx].tag % lineCountInSuperPage == row
    {
    }

    /** What the FTL has of a line that is valid and dirty afterwards is what was written last. */
    method WriteBack(setIdx: nat, wayIdx: nat, row: nat, tick: nat) returns (beginAt: nat)
      requires CacheOk() && setIdx < setSize && wayIdx < waySize && row < lineCountInSuperPage
      requires cacheData[setIdx, wayIdx].valid ==> cacheData[setIdx, wayIdx].tag % lineCountInSuperPage == row
      modifies this`stored
      ensures CacheOk() && tick <= beginAt
      ensures var line := cacheData[setIdx, wayIdx];
        line.valid && line.dirty ==> line.tag in newest && line.tag in stored && stored[line.tag] == newest[line.tag]
    {
      var line := cacheData[setIdx, wayIdx];
      beginAt := tick;
      if line.valid && line.dirty {
        assert LineOk(setIdx, wayIdx);
        DivModBack(line.tag, lineCountInSuperPage);
        beginAt := FtlWrite(line.tag / lineCountInSuperPage, row, line.data, tick);
      }
    }

    /** Every selected line is written back and freed; no other line changes. */
    method EvictCache(tick: nat, ghost row: nat, ghost col: nat)
      requires CacheOk() && SelectionFits() && row < lineCountInSuperPage && col < parallelIO
      modifies this`stored, cacheData, evictData
      ensures Valid()
      ensures var p := old(evictData[row, col]); p.At? && InCache(p) ==> !cacheData[p.setIdx, p.wayIdx].valid
      ensures forall s, w :: 0 <= s < setSize && 0 <= w < waySize && cacheData[s, w].valid ==>
        cacheData[s, w] == old(cacheData[s, w])
    {
      ghost var p := evictData[row, col];
      for r := 0 to lineCountInSuperPage
        invariant CacheOk() && SelectionFits()
        invariant forall i, j :: 0 <= i < r && 0 <= j < parallelIO ==> evictData[i, j] == Null
        invariant forall s, w :: 0 <= s < setSize && 0 <= w < waySize && cacheData[s, w].valid ==>
          cacheData[s, w] == old(cacheData[s, w])
        invariant if r <= row then evictData[row, col] == p
                  else p.At? && InCache(p) ==> !cacheData[p.setIdx, p.wayIdx].valid
      {
        for c := 0 to parallelIO
          invariant CacheOk() && SelectionFits()
          invariant forall i, j :: 0 <= i < r && 0 <= j < parallelIO ==> evictData[i, j] == Null
          invariant forall j :: 0 <= j < c ==> evictData[r, j] == Null
          invariant forall s, w :: 0 <= s < setSize && 0 <= w < waySize && cacheData[s, w].valid ==>
            cacheData[s, w] == old(cacheData[s, w])
          invariant if r < row || (r == row && c <= col) then evictData[row, col] == p
                    else p.At? && InCache(p) ==> !cacheData[p.setIdx, p.wayIdx].valid
        {
          EvictLine(r, c, tick);
        }
      }
    }

    /** The address goes into a free way of its own set. */
    method Place(lca: nat, way: nat, data: nat, dirty: bool, tick: nat)
      requires CacheOk() && way < waySize && !cacheData[lca % setSize, way].valid && lca !in newest
      requires dirty || (lca in stored && stored[lca] == data)
      modifies this`newest, cacheData
      ensures CacheOk() && newest == old(newest)[lca := data]
    {
      cacheData[lca % setSize, way] := Line(lca, tick, tick, dirty, true, data);
      newest := newest[lca := data];
      forall a | a in newest && a != lca && old(InDirtyLine(a))
        ensures InDirtyLine(a)
      {
        var w :| 0 <= w < waySize && old(cacheData[a % setSize, w].valid && cacheData[a % setSize, w].dirty)
          && old(cacheData[a % setSize, w].tag) == a;
        assert cacheData[a % setSize, w] == old(cacheData[a % setSize, w]);
      }
    }

    ghost predicate NothingLostBut(lca: nat)
      requires Shape()
      reads this, cacheData
    {
      forall a :: a in newest && a != lca ==> InDirtyLine(a) || (a in stored && stored[a] == newest[a])
    }

    /** The line that holds the address takes the new data. */
    method Update(lca: nat, way: nat, data: nat, dirty: bool, tick: nat)
      requires Shape() && way < waySize
      requires cacheData[lca % setSize, way].valid && cacheData[lca % setSize, way].tag == lca
      requires dirty || (lca in stored && stored[lca] == data)
      requires LinesOk() && NothingLostBut(lca)
      modifies this`newest, cacheData
      ensures CacheOk() && (old(NothingSelected()) ==> NothingSelected()) && newest == old(newest)[lca := data]
    {
      cacheData[lca % setSize, way] := cacheData[lca % setSize, way].(
        insertedAt := tick, lastAccessed := tick, dirty := dirty, data := data);
      newest := newest[lca := data];
      forall a | a in newest && a != lca && old(InDirtyLine(a))
        ensures InDirtyLine(a)
      {
        var w :| 0 <= w < waySize && old(cacheData[a % setSize, w].valid && cacheData[a % setSize, w].dirty)
          && old(cacheData[a % setSize, w].tag) == a;
        assert cacheData[a % setSize, w] == old(cacheData[a % setSize, w]);
      }
    }

    /** With all ways of the target set in use, lines are evicted until one of them is free. */
    method MakeRoom(target: nat, tick: nat)
      requires Valid() && target < setSize && forall w :: 0 <= w < waySize ==> cacheData[target, w].valid
      modifies this`stored, cacheData, evictData
      ensures Valid() && exists w :: 0 <= w < waySize && !cacheData[target, w].valid
    {
      SelectLines();
      if superPageMode {
        CollapseRows();
      }
      var row, col := EnsureTarget(target);
      ghost var p := evictData[row, col];
      EvictCache(tick, row, col);
      assert !cacheData[target, p.wayIdx].valid;
    }

    /** A miss: into a free way if there is one, and otherwise after an eviction. */
    method WriteMiss(lca: nat, data: nat, dirty: bool, flash: nat, tick: nat) returns (r: Result<bool>)
      requires Valid() && lca !in newest && (dirty || (lca in stored && stored[lca] == data))
      modifies this`newest, this`stored, cacheData, evictData
      ensures r.Ok? && Valid() && newest == old(newest)[lca := data]
      ensures r.value <==> exists w :: 0 <= w < waySize && !old(cacheData[lca % setSize, w].valid)
      ensures r.value ==> stored == old(stored)
    {
      var setIdx := lca % setSize;
      var wayIdx := GetEmptyWay(setIdx);
      if wayIdx != waySize {
        Place(lca, wayIdx, data, dirty, if dirty then tick else flash);
        return Ok(true);
      }
      MakeRoom(setIdx, tick);
      wayIdx := GetEmptyWay(setIdx);
      if wayIdx == waySize {
        return Panic(CacheCorrupted);
      }
      Place(lca, wayIdx, data, true, tick);
      r := Ok(false);
    }

    /** Valid, except that lca may be out of date everywhere. */
    ghost predicate Unsettled(lca: nat)
      reads this, cacheData, evictData
    {
      Shape() && LinesOk() && NothingLostBut(lca) && NothingSelected()
    }

    lemma ValidUnsettled(lca: nat)
      requires Valid()
      ensures Unsettled(lca)
    {
    }

    /** A full line goes to the FTL under its logical page and unit. */
    method WriteThrough(lca: nat, data: nat, tick: nat) returns (flash: nat)
      requires Valid()
      modifies `stored
      ensures stored == old(stored)[lca := data] && tick <= flash && Unsettled(lca)
    {
      DivModBack(lca, lineCountInSuperPage);
      flash := FtlWrite(lca / lineCountInSuperPage, lca % lineCountInSuperPage, data, tick);
    }

    ghost predicate HitOrFree(lca: nat)
      requires Shape()
      reads this, cacheData
    {
      exists w :: 0 <= w < waySize && (cacheData[lca % setSize, w].valid ==> cacheData[lca % setSize, w].tag == lca)
    }

    /** True on a hit and on a cold miss.  full says that the request covers the whole line, which then
        goes to the FTL at once. */
    method Write(lca: nat, full: bool, data: nat, tick: nat) returns (r: Result<bool>)
      requires Valid()
      modifies this`newest, this`stored, cacheData, evictData
      ensures r.Ok? && Valid() && newest == old(newest)[lca := data]
      ensures r.value <==> old(HitOrFree(lca))
    {
      hide LinesOk, NothingLost, NothingLostBut, NothingSelected;
      var dirty, flash := !full, tick;
      ghost var written := newest;
      ValidUnsettled(lca);
      if full {
        flash := WriteThrough(lca, data, tick);
      }
      var wayIdx := GetValidWay(lca);
      var now: nat :| tick <= now;
      if wayIdx != waySize {
        Update(lca, wayIdx, data, dirty, if dirty then now else flash);
        return Ok(true);
      }
      Forget(lca);
      r := WriteMiss(lca, data, dirty, flash, now);
      assert newest == written[lca := data];
    }

    /** The address is not in the cache, so that nothing there depends on what was written to it. */
    ghost method Forget(lca: nat)
      requires Unsettled(lca)
      requires forall w :: 0 <= w < waySize ==>
        !(cacheData[lca % setSize, w].valid && cacheData[lca % setSize, w].tag == lca)
      modifies `newest
      ensures Valid() && newest == old(newest) - {lca}
    {
      newest := newest - {lca};
      assert forall a :: a in newest && old(InDirtyLine(a)) ==> InDirtyLine(a);
    }
  }

  /** An address has at most one valid line in the whole cache, in its own set, and whoever looks there
      first and in the FTL otherwise finds what was written last. */
  lemma OneLine(c: GenericCache, s1: nat, w1: nat, s2: nat, w2: nat)
    requires c.Valid() && s1 < c.setSize && w1 < c.waySize && s2 < c.setSize && w2 < c.waySize
    requires c.cacheData[s1, w1].valid && c.cacheData[s2, w2].valid
    requires c.cacheData[s1, w1].tag == c.cacheData[s2, w2].tag
    ensures s1 == s2 == c.cacheData[s1, w1].tag % c.setSize && w1 == w2
    ensures c.cacheData[s1, w1].data == c.newest[c.cacheData[s1, w1].tag]
    ensures !c.cacheData[s1, w1].dirty ==>
      c.cacheData[s1, w1].tag in c.stored && c.stored[c.cacheData[s1, w1].tag] == c.cacheData[s1, w1].data
  {
    assert c.LineOk(s1, w1) && c.LineOk(s2, w2);
  }

  lemma DivModBack(x: nat, n: nat)
    requires 0 < n
    ensures x / n * n + x % n == x
  {
  }
}
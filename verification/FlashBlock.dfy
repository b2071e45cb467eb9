/** A NAND block: ftl/common/block.cc.  BlockView is the abstract state, indexed by page and
    I/O unit; class Block keeps the two representations of the source, one bitset over the
    pages when a page has a single unit and one bitset per page otherwise. */
module FlashBlock {
  import opened Outcome

  datatype BlockView = BlockView(
    idx: nat,
    valid: seq<seq<bool>>,
    erased: seq<seq<bool>>,
    lpns: seq<seq<nat>>,
    data: seq<seq<nat>>,    // what the flash holds, written together with the LPN tag
    next: seq<nat>,         // pNextWritePageIndex
    eraseCount: nat,
    refreshed: nat          // refreshedPageCount
  )

  ghost predicate Rect<T>(s: seq<seq<T>>, rows: nat, cols: nat) {
    |s| == rows && forall p :: 0 <= p < rows ==> |s[p]| == cols
  }

  ghost predicate Sized(v: BlockView, pages: nat, units: nat) {
    && Rect(v.valid, pages, units) && Rect(v.erased, pages, units)
    && Rect(v.lpns, pages, units) && Rect(v.data, pages, units)
    && |v.next| == units
  }

  /** Pages are programmed in order, unit by unit: exactly the slots from next on are erased,
      and a valid slot has been programmed. */
  ghost predicate Sequential(v: BlockView, pages: nat, units: nat)
    requires Sized(v, pages, units)
  {
    && (forall u :: 0 <= u < units ==> v.next[u] <= pages)
    && (forall p, u :: 0 <= p < pages && 0 <= u < units ==> (v.erased[p][u] <==> v.next[u] <= p))
    && (forall p, u :: 0 <= p < pages && 0 <= u < units ==> v.valid[p][u] ==> p < v.next[u])
  }

  ghost predicate BlockOk(v: BlockView, pages: nat, units: nat) {
    Sized(v, pages, units) && Sequential(v, pages, units)
  }

  function Filled<T>(pages: nat, units: nat, x: T): (s: seq<seq<T>>)
    ensures Rect(s, pages, units)
    ensures forall p, u :: 0 <= p < pages && 0 <= u < units ==> s[p][u] == x
  {
    seq(pages, _ => seq(units, _ => x))
  }

  function Set2<T>(s: seq<seq<T>>, p: nat, u: nat, x: T): (r: seq<seq<T>>)
    requires p < |s| && u < |s[p]|
    ensures |r| == |s| && forall q :: 0 <= q < |s| ==> |r[q]| == |s[q]|
    ensures forall q, w :: 0 <= q < |s| && 0 <= w < |s[q]| ==>
      r[q][w] == if q == p && w == u then x else s[q][w]
  {
    s[p := s[p][u := x]]
  }

  /** Block::write */
  function Write(v: BlockView, page: nat, lpn: nat, u: nat, d: nat, pages: nat, units: nat): (r: Result<BlockView>)
    requires BlockOk(v, pages, units)
    ensures page < pages && u < units && page == v.next[u] ==> r.Ok? && BlockOk(r.value, pages, units)
    ensures r.Ok? ==> page < pages && u < units && v.next[u] <= page
  {
    if page >= pages || u >= units then Panic(OutOfRange)
    else if !v.erased[page][u] then Panic(WriteNotErased)
    else if page < v.next[u] then Panic(WriteNotSequential)
    else Ok(v.(erased := Set2(v.erased, page, u, false), valid := Set2(v.valid, page, u, true),
               lpns := Set2(v.lpns, page, u, lpn), data := Set2(v.data, page, u, d),
               next := v.next[u := page + 1]))
  }

  lemma WriteShape(v: BlockView, page: nat, lpn: nat, u: nat, d: nat, pages: nat, units: nat)
    requires BlockOk(v, pages, units) && u < units && page == v.next[u] && Write(v, page, lpn, u, d, pages, units).Ok?
    ensures var w := Write(v, page, lpn, u, d, pages, units).value;
      w.idx == v.idx && BlockOk(w, pages, units)
  {
  }

  /** Equal apart from element (page, u). */
  ghost predicate SameBut<T>(a: seq<seq<T>>, b: seq<seq<T>>, page: nat, u: nat) {
    && |a| == |b| && (forall p :: 0 <= p < |a| ==> |a[p]| == |b[p]|)
    && (forall p, w :: 0 <= p < |a| && 0 <= w < |a[p]| && (p, w) != (page, u) ==> a[p][w] == b[p][w])
  }

  /** From v to w, unit u of page was programmed with lpn and d. */
  ghost predicate Programmed(v: BlockView, w: BlockView, page: nat, u: nat, lpn: nat, d: nat) {
    && SameBut(v.valid, w.valid, page, u) && SameBut(v.lpns, w.lpns, page, u) && SameBut(v.data, w.data, page, u)
    && page < |v.valid| && u < |v.valid[page]| && !v.valid[page][u] && w.valid[page][u]
    && page < |w.lpns| && u < |w.lpns[page]| && w.lpns[page][u] == lpn
    && page < |w.data| && u < |w.data[page]| && w.data[page][u] == d
    && u < |v.next| && w.next == v.next[u := page + 1]
  }

  lemma WriteProgrammed(v: BlockView, lpn: nat, u: nat, d: nat, pages: nat, units: nat)
    requires BlockOk(v, pages, units) && u < units && v.next[u] < pages
    ensures var r := Write(v, v.next[u], lpn, u, d, pages, units);
      r.Ok? && Programmed(v, r.value, v.next[u], u, lpn, d)
  {
  }

  /** Block::invalidate */
  function Invalidate(v: BlockView, page: nat, u: nat, pages: nat, units: nat): (r: BlockView)
    requires BlockOk(v, pages, units) && page < pages && u < units
    ensures BlockOk(r, pages, units)
  {
    v.(valid := Set2(v.valid, page, u, false))
  }

  lemma InvalidateSame(v: BlockView, page: nat, u: nat, pages: nat, units: nat)
    requires BlockOk(v, pages, units) && page < pages && u < units
    ensures var w := Invalidate(v, page, u, pages, units);
      && SameBut(v.valid, w.valid, page, u) && SameBut(v.lpns, w.lpns, page, u) && SameBut(v.data, w.data, page, u)
      && page < |w.valid| && u < |w.valid[page]| && !w.valid[page][u] && w.next == v.next
  {
  }

  /** Block::erase; tags and flash contents are left as they are. */
  function Erase(v: BlockView, pages: nat, units: nat): (r: BlockView)
    requires BlockOk(v, pages, units)
    ensures BlockOk(r, pages, units)
  {
    v.(valid := Filled(pages, units, false), erased := Filled(pages, units, true),
       next := seq(units, _ => 0), eraseCount := v.eraseCount + 1)
  }

  /** A block as the constructor leaves it, with the configured initial erase count. */
  function New(idx: nat, pages: nat, units: nat, eraseCount: nat): (r: BlockView)
    ensures BlockOk(r, pages, units)
  {
    BlockView(idx, Filled(pages, units, false), Filled(pages, units, true), Filled(pages, units, 0),
              Filled(pages, units, 0), seq(units, _ => 0), eraseCount, 0)
  }

  /** getNextWritePageIndex(): the largest of the per-unit indices. */
  function MaxOf(s: seq<nat>): (m: nat)
    ensures forall u :: 0 <= u < |s| ==> s[u] <= m
    ensures m == 0 || m in s
  {
    if s == [] then 0
    else
      var m := MaxOf(s[..|s| - 1]);
      if m < s[|s| - 1] then s[|s| - 1] else m
  }

  function NextPage(v: BlockView): nat {
    MaxOf(v.next)
  }

  function Bit(b: bool): nat { if b then 1 else 0 }

  function Count(s: seq<bool>): (n: nat)
    ensures n <= |s|
    ensures n == 0 <==> forall u :: 0 <= u < |s| ==> !s[u]
  {
    if s == [] then 0 else Count(s[..|s| - 1]) + Bit(s[|s| - 1])
  }

  predicate Any(s: seq<bool>) { exists u :: 0 <= u < |s| && s[u] }

  /** getValidPageCountRaw over the first pages */
  function CountAll(s: seq<seq<bool>>): (n: nat)
    ensures n == 0 <==> forall p, u :: 0 <= p < |s| && 0 <= u < |s[p]| ==> !s[p][u]
  {
    if s == [] then 0 else CountAll(s[..|s| - 1]) + Count(s[|s| - 1])
  }

  /** getValidPageCount: pages with a valid unit */
  function CountPages(s: seq<seq<bool>>): (n: nat)
    ensures n == 0 <==> forall p, u :: 0 <= p < |s| && 0 <= u < |s[p]| ==> !s[p][u]
    ensures n <= |s|
  {
    if s == [] then 0 else CountPages(s[..|s| - 1]) + Bit(Any(s[|s| - 1]))
  }
}

/** NVMe physical region pages (sil/nvme/prp.cc): the constructor lays data pages and chained PRP lists
    out in one allocation; section 4.3 of NVM Express 1.3 says how a controller walks them. */
module PrpList {

  const PAGE_SIZE := 4096
  const MAX_ENTRIES := 512  // PAGE_SIZE / 8

  function DivCeil(x: nat, y: nat): nat
    requires 0 < x && 0 < y
  {
    (x - 1) / y + 1
  }

  /** The number of pages that size bytes take. */
  function Pages(size: nat): nat {
    if size == 0 then 1 else DivCeil(size, PAGE_SIZE)
  }

  // ---- The controller's side ----

  /** Entry e of the list page at address p; words are eight bytes. */
  ghost function Fetch(memory: seq<nat>, base: nat, p: nat, e: nat): nat {
    var w := (p - base) / 8 + e;
    if base <= p && (p - base) % 8 == 0 && w < |memory| then memory[w] else 0
  }

  /** The data pages named by a list of n entries.  When n entries do not fit the page, its last entry
      points to the next list. */
  ghost function WalkList(memory: seq<nat>, base: nat, p: nat, n: nat): seq<nat>
    decreases n
  {
    if n <= MAX_ENTRIES then seq(n, e requires 0 <= e => Fetch(memory, base, p, e))
    else
      seq(MAX_ENTRIES - 1, e requires 0 <= e => Fetch(memory, base, p, e))
      + WalkList(memory, base, Fetch(memory, base, p, MAX_ENTRIES - 1), n - (MAX_ENTRIES - 1))
  }

  ghost function Walk(memory: seq<nat>, base: nat, prp1: nat, prp2: nat, size: nat): seq<nat> {
    var n := Pages(size);
    if n == 1 then [prp1]
    else if n == 2 then [prp1, prp2]
    else [prp1] + WalkList(memory, base, prp2, n - 1)
  }

  // ---- The layout ----

  /** How many lists n entries take. */
  function Lists(n: nat): (r: nat)
    ensures 1 <= r
    ensures MAX_ENTRIES - 1 == 511 && 511 * (r - 1) + (if r == 1 then 0 else 2) <= n <= 511 * r + 1 
    decreases n
  {
    if n <= MAX_ENTRIES then 1 else 1 + Lists(n - (MAX_ENTRIES - 1))
  }

  /** Page numbers inside the allocation: list j, and entry e of it. */
  function ListPage(j: nat): nat { 1 + 512 * j }

  function DataPage(j: nat, e: nat): nat { 2 + 512 * j + e }

  function Address(base: nat, page: nat): nat { base + PAGE_SIZE * page }

  /** What entry e of list j must hold when there are lists lists. */
  function Entry(base: nat, lists: nat, j: nat, e: nat): nat {
    Address(base, if e == 511 && j + 1 < lists then ListPage(j + 1) else DataPage(j, e))
  }

  /** The word of entry e of list j. */
  function Word(j: nat, e: nat): nat { 512 * ListPage(j) + e }

  /** Data page number d after the first page. */
  function Nth(lists: nat, d: nat): nat
    requires 1 <= lists
  {
    var j := if d / 511 < lists then d / 511 else lists - 1;
    DataPage(j, d - 511 * j)
  }

  ghost function DataPages(base: nat, size: nat): seq<nat> {
    var n := Pages(size);
    if n == 1 then [base]
    else if n == 2 then [base, Address(base, 1)]
    else [base] + seq(n - 1, d requires 0 <= d => Address(base, Nth(Lists(n - 1), d)))
  }

  /** Bytes to allocate. */
  function Capacity(size: nat): nat {
    var n := Pages(size);
    if n <= 2 then PAGE_SIZE * n else PAGE_SIZE * (n + Lists(n - 1))
  }

  lemma NthApart(n: nat, d: nat)
    requires d < n
    ensures 2 <= Nth(Lists(n), d) <= n + Lists(n)
    ensures forall j :: 0 <= j < Lists(n) ==> Nth(Lists(n), d) != ListPage(j)
  {
    var lists := Lists(n);
    var j := if d / 511 < lists then d / 511 else lists - 1;
    var e := d - 511 * j;
    assert 0 <= e <= 511 && (e == 511 ==> j == lists - 1);
    assert Nth(lists, d) == 1 + 512 * j + (1 + e);
  }

  lemma NthGrows(lists: nat, d: nat, d': nat)
    requires 1 <= lists && d < d'
    ensures Nth(lists, d) < Nth(lists, d')
  {
    assert d / 511 <= d' / 511;
  }

  lemma PositivePages(size: nat)
    ensures 1 <= Pages(size)
  {
  }

  lemma FewPages(base: nat, size: nat)
    requires base % PAGE_SIZE == 0 && Pages(size) <= 2
    ensures var s := DataPages(base, size);
      && |s| == Pages(size)
      && (forall i :: 0 <= i < |s| ==> s[i] % PAGE_SIZE == 0 && base <= s[i] && s[i] + PAGE_SIZE <= base + Capacity(size))
      && (forall i, k :: 0 <= i < k < |s| ==> s[i] < s[k])
  {
    hide Pages, Lists;
    PositivePages(size);
  }

  lemma OnePage(base: nat, size: nat, i: nat)
    requires base % PAGE_SIZE == 0 && 2 < Pages(size) && i < Pages(size)
    ensures var s := DataPages(base, size);
      && |s| == Pages(size) && s[i] % PAGE_SIZE == 0 && base <= s[i] && s[i] + PAGE_SIZE <= base + Capacity(size)
      && forall j :: 0 <= j < Lists(Pages(size) - 1) ==> s[i] != Address(base, ListPage(j))
  {
    hide Nth, Lists, Pages;
    if i > 0 {
      NthApart(Pages(size) - 1, i - 1);
    }
  }

  lemma PagesGrow(base: nat, size: nat, i: nat, k: nat)
    requires 2 < Pages(size) && i < k < Pages(size)
    ensures |DataPages(base, size)| == Pages(size) && DataPages(base, size)[i] < DataPages(base, size)[k]
  {
    hide Lists, Pages;
    NthApart(Pages(size) - 1, k - 1);
    if i > 0 {
      hide Nth;
      NthGrows(Lists(Pages(size) - 1), i - 1, k - 1);
    }
  }

  /** The pages are aligned, distinct, inside the allocation, and none of them is a list page. */
  lemma PagesApart(base: nat, size: nat)
    requires base % PAGE_SIZE == 0
    ensures var s := DataPages(base, size);
      && |s| == Pages(size)
      && (forall i :: 0 <= i < |s| ==> s[i] % PAGE_SIZE == 0 && base <= s[i] && s[i] + PAGE_SIZE <= base + Capacity(size))
      && (forall i, k :: 0 <= i < k < |s| ==> s[i] < s[k])
      && (|s| > 2 ==> forall i, j :: 0 <= i < |s| && 0 <= j < Lists(|s| - 1) ==> s[i] != Address(base, ListPage(j)))
  {
    hide Nth, Lists, Pages, Address;
    PositivePages(size);
    if Pages(size) <= 2 {
      FewPages(base, size);
    } else {
      var n, s := Pages(size), DataPages(base, size);
      forall i | 0 <= i < n
        ensures s[i] % PAGE_SIZE == 0 && base <= s[i] && s[i] + PAGE_SIZE <= base + Capacity(size)
        ensures forall j :: 0 <= j < Lists(n - 1) ==> s[i] != Address(base, ListPage(j))
      {
        OnePage(base, size, i);
      }
      forall i, k | 0 <= i < k < n
        ensures s[i] < s[k]
      {
        PagesGrow(base, size, i, k);
      }
    }
  }

  // ---- The walk finds the layout ----

  /** All entries of n entries in lists j and later are in place. */
  ghost predicate Laid(memory: seq<nat>, base: nat, lists: nat, j: nat, n: nat)
    requires 1 <= lists
  {
    forall k: nat, e: nat :: j <= k < lists && e < Filled(lists, j, n, k) ==>
      Word(k, e) < |memory| && memory[Word(k, e)] == Entry(base, lists, k, e)
  }

  /** The number of entries of list k, when n of them are left from list j on. */
  ghost function Filled(lists: nat, j: nat, n: nat, k: nat): int {
    if k + 1 < lists then MAX_ENTRIES else n - 511 * (k - j)
  }

  lemma NthAt(lists: nat, j: nat, e: nat)
    requires j < lists && if j + 1 < lists then e < 511 else true
    ensures Nth(lists, 511 * j + e) == DataPage(j, e)
  {
    var d := 511 * j + e;
    if j + 1 < lists {
      assert d / 511 == j;
    } else {
      assert d / 511 >= j;
    }
  }

  lemma FetchLaid(memory: seq<nat>, base: nat, lists: nat, j: nat, n: nat, e: nat)
    requires j < lists && Laid(memory, base, lists, j, n) && e < Filled(lists, j, n, j)
    ensures Fetch(memory, base, Address(base, ListPage(j)), e) == Entry(base, lists, j, e)
  {
    assert Address(base, ListPage(j)) - base == 8 * (512 * ListPage(j));
    assert memory[Word(j, e)] == Entry(base, lists, j, e);
  }

  lemma {:induction false} WalkLaid(memory: seq<nat>, base: nat, lists: nat, j: nat, n: nat)
    requires j < lists && Lists(n) == lists - j && 0 < n && Laid(memory, base, lists, j, n)
    ensures |WalkList(memory, base, Address(base, ListPage(j)), n)| == n
    ensures forall d :: 0 <= d < n ==>
      WalkList(memory, base, Address(base, ListPage(j)), n)[d] == Address(base, Nth(lists, 511 * j + d))
    decreases n
  {
    var p := Address(base, ListPage(j));
    hide Fetch, Laid, Nth, Address, ListPage;
    if n <= MAX_ENTRIES {
      forall e: nat | e < n
        ensures Fetch(memory, base, p, e) == Address(base, Nth(lists, 511 * j + e))
      {
        FetchLaid(memory, base, lists, j, n, e);
        NthAt(lists, j, e);
      }
    } else {
      FetchLaid(memory, base, lists, j, n, 511);
      LaidRest(memory, base, lists, j, n);
      WalkLaid(memory, base, lists, j + 1, n - 511);
      forall e: nat | e < 511
        ensures Fetch(memory, base, p, e) == Address(base, Nth(lists, 511 * j + e))
      {
        FetchLaid(memory, base, lists, j, n, e);
        NthAt(lists, j, e);
      }
      forall d | 511 <= d < n
        ensures WalkList(memory, base, p, n)[d] == Address(base, Nth(lists, 511 * j + d))
      {
        assert 511 * (j + 1) + (d - 511) == 511 * j + d;
      }
    }
  }

  lemma LaidRest(memory: seq<nat>, base: nat, lists: nat, j: nat, n: nat)
    requires j + 1 < lists && 511 <= n && Laid(memory, base, lists, j, n)
    ensures Laid(memory, base, lists, j + 1, n - 511)
  {
    assert forall k :: Filled(lists, j + 1, n - 511, k) == Filled(lists, j, n, k);
  }

  // ---- The constructor ----

  /** Lists before j are complete, and so are the first entries of list j. */
  ghost predicate Written(memory: seq<nat>, base: nat, lists: nat, j: nat, entry: nat) {
    forall k: nat, e: nat :: (k < j && e < MAX_ENTRIES) || (k == j && e < entry) ==>
      Word(k, e) < |memory| && memory[Word(k, e)] == Entry(base, lists, k, e)
  }

  lemma WriteNext(memory: seq<nat>, base: nat, lists: nat, j: nat, entry: nat)
    requires Written(memory, base, lists, j, entry) && entry < MAX_ENTRIES && Word(j, entry) < |memory|
    ensures Written(memory[Word(j, entry) := Entry(base, lists, j, entry)], base, lists, j, entry + 1)
  {
  }

  /** The terminator is no entry of a list, even behind a full one. */
  lemma Terminate(memory: seq<nat>, base: nat, lists: nat, j: nat, entry: nat)
    requires Written(memory, base, lists, j, entry) && entry <= MAX_ENTRIES && Word(j, entry) < |memory|
    ensures Written(memory[Word(j, entry) := 0], base, lists, j, entry)
  {
  }

  lemma ListBounds(n: nat, j: nat, entry: nat)
    requires 0 < n && j < Lists(n) && entry <= Filled(Lists(n), 0, n, j)
    ensures Word(j, entry) < 512 * (n + 1 + Lists(n)) && 0 < n - 511 * (Lists(n) - 1) <= MAX_ENTRIES
  {
    LastFilled(n);
  }

  lemma {:induction false} LastFilled(n: nat)
    requires 0 < n
    ensures 0 < n - 511 * (Lists(n) - 1) <= MAX_ENTRIES
    decreases n
  {
    if n > MAX_ENTRIES {
      LastFilled(n - 511);
    }
  }

  /** list is before and then the first m data pages after page one. */
  ghost predicate Listed(list: seq<nat>, before: seq<nat>, base: nat, lists: nat, m: nat)
    requires 1 <= lists
  {
    && |list| == |before| + m && list[..|before|] == before
    && forall d :: 0 <= d < m ==> list[|before| + d] == Address(base, Nth(lists, d))
  }

  lemma ListedNext(list: seq<nat>, before: seq<nat>, base: nat, lists: nat, m: nat, page: nat)
    requires 1 <= lists && Listed(list, before, base, lists, m) && page == Address(base, Nth(lists, m))
    ensures Listed(list + [page], before, base, lists, m + 1)
  {
    hide Nth, Address;
  }

  /** How the addresses that the loop keeps relate to each other. */
  lemma Cursor(base: nat, lists: nat, j: nat, entry: nat)
    ensures base <= Address(base, ListPage(j)) && (Address(base, ListPage(j)) - base) / 8 + entry == Word(j, entry)
    ensures Address(base, DataPage(j, entry)) + PAGE_SIZE == Address(base, DataPage(j, entry + 1))
    ensures DataPage(j, 511) == ListPage(j + 1) && DataPage(j + 1, 0) == ListPage(j + 1) + 1
    ensures Address(base, ListPage(j)) + PAGE_SIZE == Address(base, DataPage(j, 0))
    ensures Entry(base, lists, j, entry) == Address(base, DataPage(j, entry))
  {
    assert Address(base, ListPage(j)) - base == 8 * (512 * ListPage(j));
  }

  lemma CursorEnd(base: nat, n: nat, j: nat, entry: nat)
    requires j + 1 == Lists(n) && entry + 511 * j == n
    ensures Address(base, DataPage(j, entry)) == base + 8 * (512 * (n + 1 + Lists(n)))
  {
  }

  lemma NothingWritten(memory: seq<nat>, list: seq<nat>, base: nat, lists: nat)
    requires 1 <= lists
    ensures Written(memory, base, lists, 0, 0) && Listed(list, list, base, lists, 0)
    ensures Address(base, 1) == Address(base, ListPage(0)) && base + PAGE_SIZE * 2 == Address(base, DataPage(0, 0))
  {
    hide Nth;
  }

  lemma PagesOf(length: nat)
    ensures length <= PAGE_SIZE ==> Pages(length) == 1
    ensures PAGE_SIZE < length <= 2 * PAGE_SIZE ==> Pages(length) == 2
    ensures 2 * PAGE_SIZE < length ==> 2 < Pages(length) == 1 + DivCeil(length - PAGE_SIZE, PAGE_SIZE)
  {
  }

  lemma OneListLess(size: nat)
    requires size > PAGE_SIZE * MAX_ENTRIES
    ensures DivCeil(size - PAGE_SIZE * 511, PAGE_SIZE) == DivCeil(size, PAGE_SIZE) - 511
    ensures Lists(DivCeil(size, PAGE_SIZE)) == 1 + Lists(DivCeil(size, PAGE_SIZE) - 511)
  {
  }

  lemma OneListLeft(size: nat)
    requires 0 < size <= PAGE_SIZE * MAX_ENTRIES
    ensures 0 < DivCeil(size, PAGE_SIZE) <= MAX_ENTRIES && Lists(DivCeil(size, PAGE_SIZE)) == 1
  {
  }

  class PRP {
    const base: nat  // the address that the allocation returned
    var memory: array<nat>
    var capacity: nat
    var ptr1: nat
    var ptr2: nat
    var ptrList: seq<nat>

    /** The first loop: how much to allocate, and how many lists of how many entries that makes. */
    static method ComputeCapacity(length: nat) returns (mode: nat, listCount: nat, lastEntryCount: nat, capacity: nat)
      ensures mode == if Pages(length) <= 2 then Pages(length) else 3
      ensures capacity == Capacity(length)
      ensures mode == 3 ==>
        listCount == Lists(Pages(length) - 1) && lastEntryCount + 511 * (listCount - 1) == Pages(length) - 1
    {
      hide Lists, DivCeil, Pages;
      PagesOf(length);
      listCount, lastEntryCount := 1, 0;
      if length <= PAGE_SIZE {
        return 1, 1, 0, PAGE_SIZE;
      } else if length <= PAGE_SIZE * 2 {
        return 2, 1, 0, PAGE_SIZE * 2;
      }
      mode := 3;
      var size := length - PAGE_SIZE;
      capacity := PAGE_SIZE * 2;
      ghost var n := Pages(length) - 1;
      while size > PAGE_SIZE * MAX_ENTRIES
        invariant 0 < size && 1 <= listCount
        invariant n == 511 * (listCount - 1) + DivCeil(size, PAGE_SIZE)
        invariant Lists(n) == listCount - 1 + Lists(DivCeil(size, PAGE_SIZE))
        invariant capacity == PAGE_SIZE * (2 + 512 * (listCount - 1))
      {
        OneListLess(size);
        listCount := listCount + 1;
        size := size - PAGE_SIZE * (MAX_ENTRIES - 1);
        capacity := capacity + PAGE_SIZE * MAX_ENTRIES;
      }
      OneListLeft(size);
      lastEntryCount := DivCeil(size, PAGE_SIZE);
      capacity := capacity + PAGE_SIZE * lastEntryCount;
    }

    /** *(listPtr + entry) = value, where listPtr points to list page j */
    method Store(listPtr: nat, entry: nat, value: nat, ghost j: nat)
      requires listPtr == Address(base, ListPage(j)) && Word(j, entry) < memory.Length
      modifies memory
      ensures memory[..] == old(memory[..])[Word(j, entry) := value]
    {
      Cursor(base, 1, j, entry);
      memory[(listPtr - base) / 8 + entry] := value;
    }

    /** The next entry of list j, and the page that it names. */
    method WriteEntry(listPtr: nat, entry: nat, page: nat, ghost lists: nat, ghost j: nat, ghost before: seq<nat>)
      requires j < lists && entry < (if j + 1 < lists then 511 else 512) && Word(j, entry) < memory.Length
      requires listPtr == Address(base, ListPage(j)) && page == Address(base, DataPage(j, entry))
      requires Written(memory[..], base, lists, j, entry) && Listed(ptrList, before, base, lists, 511 * j + entry)
      modifies this`ptrList, memory
      ensures Written(memory[..], base, lists, j, entry + 1)
      ensures Listed(ptrList, before, base, lists, 511 * j + entry + 1)
    {
      Cursor(base, lists, j, entry);
      WriteNext(memory[..], base, lists, j, entry);
      NthAt(lists, j, entry);
      ListedNext(ptrList, before, base, lists, 511 * j + entry, page);
      hide Nth, Written, Listed, Address, Entry, Word, ListPage, DataPage;
      Store(listPtr, entry, page, j);
      ptrList := ptrList + [page];
    }

    /** The last entry of list j names list j + 1, which begins at page. */
    method WriteLink(listPtr: nat, page: nat, ghost lists: nat, ghost j: nat)
      requires j + 1 < lists && Word(j, 511) < memory.Length
      requires listPtr == Address(base, ListPage(j)) && page == Address(base, DataPage(j, 511))
      requires Written(memory[..], base, lists, j, 511)
      modifies memory
      ensures Written(memory[..], base, lists, j + 1, 0) && page == Address(base, ListPage(j + 1))
    {
      Cursor(base, lists, j, 511);
      WriteNext(memory[..], base, lists, j, 511);
      hide Written, Address, Entry, Word, ListPage, DataPage;
      Store(listPtr, 511, page, j);
      WrittenCarry(memory[..], base, lists, j);
    }

    /** The second loop writes the lists.  Its cursor ends at the end of the allocation. */
    method BuildLists(lists: nat, lastEntryCount: nat, ghost n: nat) returns (end: nat)
      requires 0 < n && lists == Lists(n) && lastEntryCount + 511 * (lists - 1) == n
      requires memory.Length == 512 * (n + 1 + lists) && ptr2 == Address(base, 1)
      modifies this`ptrList, memory
      ensures Laid(memory[..], base, lists, 0, n) && Listed(ptrList, old(ptrList), base, lists, n)
      ensures end == base + 8 * memory.Length
    {
      hide Lists, Nth, Laid, Written, Listed, Address, Entry, Word, ListPage, DataPage;
      LastFilled(n);
      var listPtr, page, entry, listCount := ptr2, base + PAGE_SIZE * 2, 0, lists;
      ghost var j, before := 0, ptrList;
      NothingWritten(memory[..], ptrList, base, lists);
      Cursor(base, lists, 0, 0);
      while true
        invariant 1 <= listCount && j + listCount == lists
        invariant if listCount == 1 then entry < lastEntryCount else entry < 511
        invariant listPtr == Address(base, ListPage(j)) && page == Address(base, DataPage(j, entry))
        invariant Written(memory[..], base, lists, j, entry)
        invariant Listed(ptrList, before, base, lists, 511 * j + entry)
        decreases n - 511 * j - entry
      {
        ListBounds(n, j, entry);
        WriteEntry(listPtr, entry, page, lists, j, before);
        Cursor(base, lists, j, entry);
        entry := entry + 1;
        page := page + PAGE_SIZE;
        ListBounds(n, j, entry);
        if listCount == 1 && entry == lastEntryCount {
          Terminate(memory[..], base, lists, j, entry);
          Store(listPtr, entry, 0, j);
          end := page;
          CursorEnd(base, n, j, entry);
          break;
        } else if listCount > 1 && entry == MAX_ENTRIES - 1 {
          WriteLink(listPtr, page, lists, j);
          listPtr := page;
          page := page + PAGE_SIZE;
          listCount := listCount - 1;
          entry := 0;
          j := j + 1;
          Cursor(base, lists, j, 0);
        }
      }
      WrittenAll(memory[..], base, lists, n);
    }

    /** size bytes in an allocation at a page-aligned address.  Walking the pointers as a controller
        does yields the data pages, and nothing else. */
    constructor (size: nat, base: nat)
      requires base % PAGE_SIZE == 0
      ensures this.base == base && capacity == Capacity(size) && 8 * memory.Length == capacity
      ensures Walk(memory[..], base, ptr1, ptr2, size) == DataPages(base, size)
      ensures ptrList == if Pages(size) <= 2 then DataPages(base, size)
                         else [ptr1, ptr2] + DataPages(base, size)[1..]
    {
      var mode, listCount, lastEntryCount, bytes := ComputeCapacity(size);
      this.base := base;
      capacity := bytes;
      memory := new nat[bytes / 8](_ => 0);
      ptr1, ptr2, ptrList := base, 0, [base];
      new;
      hide Capacity, Pages, Walk, DataPages, Laid, Listed, Lists;
      CapacityWords(size);
      WalkFew(memory[..], base, size);
      if mode != 1 {
        ptr2 := base + PAGE_SIZE;
        ptrList := ptrList + [ptr2];
        if mode == 3 {
          SecondPage(base);
          var end := BuildLists(listCount, lastEntryCount, Pages(size) - 1);
          BuiltWalk(memory[..], base, size, ptrList);
        }
      }
    }
  }

  lemma SecondPage(base: nat)
    ensures base + PAGE_SIZE == Address(base, 1)
  {
  }

  lemma CapacityWords(size: nat)
    ensures 0 < Pages(size) && 8 * (Capacity(size) / 8) == Capacity(size)
    ensures 2 < Pages(size) ==> Capacity(size) / 8 == 512 * (Pages(size) + Lists(Pages(size) - 1))
  {
    hide Lists;
  }

  lemma WalkFew(memory: seq<nat>, base: nat, size: nat)
    ensures Pages(size) == 1 ==> forall p2 :: Walk(memory, base, base, p2, size) == DataPages(base, size) == [base]
    ensures Pages(size) == 2 ==>
      Walk(memory, base, base, base + PAGE_SIZE, size) == DataPages(base, size) == [base, base + PAGE_SIZE]
  {
  }

  /** The first n data pages after the first one. */
  ghost function Following(base: nat, lists: nat, n: nat): seq<nat>
    requires 1 <= lists
  {
    seq(n, d requires 0 <= d => Address(base, Nth(lists, d)))
  }

  lemma WalkFollows(memory: seq<nat>, base: nat, n: nat)
    requires 0 < n && Laid(memory, base, Lists(n), 0, n)
    ensures WalkList(memory, base, base + PAGE_SIZE, n) == Following(base, Lists(n), n)
  {
    hide Nth, Lists, Laid, Address, WalkList;
    WalkLaid(memory, base, Lists(n), 0, n);
    FirstList(base);
  }

  lemma ListedFollows(list: seq<nat>, before: seq<nat>, base: nat, lists: nat, m: nat)
    requires 1 <= lists && Listed(list, before, base, lists, m)
    ensures list == before + Following(base, lists, m)
  {
    hide Nth, Address;
    assert list == list[..|before|] + list[|before|..];
  }

  lemma BuiltWalk(memory: seq<nat>, base: nat, size: nat, list: seq<nat>)
    requires 2 < Pages(size) && Laid(memory, base, Lists(Pages(size) - 1), 0, Pages(size) - 1)
    requires Listed(list, [base, base + PAGE_SIZE], base, Lists(Pages(size) - 1), Pages(size) - 1)
    ensures Walk(memory, base, base, base + PAGE_SIZE, size) == DataPages(base, size)
    ensures list == [base, base + PAGE_SIZE] + DataPages(base, size)[1..]
  {
    hide Nth, Lists, Laid, Address, Pages, WalkList, Listed;
    var n := Pages(size) - 1;
    WalkFollows(memory, base, n);
    ListedFollows(list, [base, base + PAGE_SIZE], base, Lists(n), n);
    assert DataPages(base, size) == [base] + Following(base, Lists(n), n);
    hide Following;
  }

  lemma FirstList(base: nat)
    ensures Address(base, ListPage(0)) == base + PAGE_SIZE
  {
  }

  lemma WrittenCarry(memory: seq<nat>, base: nat, lists: nat, j: nat)
    requires Written(memory, base, lists, j, MAX_ENTRIES)
    ensures Written(memory, base, lists, j + 1, 0)
  {
  }

  lemma WrittenAll(memory: seq<nat>, base: nat, lists: nat, n: nat)
    requires 1 <= lists && 0 < n - 511 * (lists - 1)
    requires Written(memory, base, lists, lists - 1, n - 511 * (lists - 1))
    ensures Laid(memory, base, lists, 0, n)
  {
  }
}

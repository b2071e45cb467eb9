/** The imperative side of the address map: the PAL constructor's multiplications (pal/pal.cc),
    convertCPDPBP (pal/pal_old.cc) and the parsing of the allocation string (pal/config.cc). */
module AddressConvert {
  import opened Outcome
  import opened AddressMap
  import opened Arithmetic

  // ---- PAL constructor ----

  lemma Unrolled(g: Geometry, striped: bool)
    ensures Product(g, CANONICAL, striped) ==
      Factor(g, Channel, striped) * Factor(g, Package, striped) * Factor(g, Die, striped) * Factor(g, Plane, striped)
  {
    hide Factor;
    var c, w, d, p := Factor(g, Channel, striped), Factor(g, Package, striped), Factor(g, Die, striped), Factor(g, Plane, striped);
    assert CANONICAL[1..] == [Package, Die, Plane] && [Package, Die, Plane][1..] == [Die, Plane];
    assert [Die, Plane][1..] == [Plane] && [Plane][1..] == [];
    assert Product(g, [Plane], striped) == p;
    assert Product(g, [Die, Plane], striped) == d * p;
    assert Product(g, [Package, Die, Plane], striped) == w * (d * p);
    Regroup(c, w, d * p);
    Regroup(c * w, d, p);
  }

  /** An axis inside the superblock makes it larger; any other one makes more superblocks. */
  method MultiplyAxis(inside: bool, size: nat, superBlock: nat, superPageSize: nat) returns (blocks: nat, pageSize: nat)
    ensures blocks == superBlock * (if inside then 1 else size) && pageSize == superPageSize * (if inside then size else 1)
  {
    blocks, pageSize := superBlock, superPageSize;
    if inside {
      pageSize := pageSize * size;
    } else {
      blocks := blocks * size;
    }
  }

  ghost function Chain(a: nat, b: nat, c: nat, d: nat, e: nat): nat {
    a * b * c * d * e
  }

  /** superPageSize: the plane counts in multi-plane mode as well. */
  ghost function SuperPageSize(g: Geometry): nat {
    Chain(g.pageSize, Factor(g, Channel, true), Factor(g, Package, true), Factor(g, Die, true),
          if g.multiPlane then g.plane else Factor(g, Plane, true))
  }

  lemma ChainSuperBlock(g: Geometry)
    ensures Chain(g.block, Factor(g, Channel, false), Factor(g, Package, false), Factor(g, Die, false), Factor(g, Plane, false))
      == SuperBlock(g)
  {
    Unrolled(g, false);
    hide Factor, Product;
    Chained(g.block, Factor(g, Channel, false), Factor(g, Package, false), Factor(g, Die, false), Factor(g, Plane, false));
  }

  lemma ChainSuperPage(g: Geometry)
    requires Sane(g)
    ensures SuperPageSize(g) == g.pageSize * (PageInSuperPage(g) * if g.multiPlane then g.plane else 1)
  {
    Unrolled(g, true);
    assert Factor(g, Plane, true) == 1 || !g.multiPlane;
    hide Factor, Product;
    Chained(g.pageSize, Factor(g, Channel, true), Factor(g, Package, true), Factor(g, Die, true),
            if g.multiPlane then g.plane else Factor(g, Plane, true));
  }

  method MultiplyAxes(g: Geometry) returns (superBlock: nat, superPageSize: nat)
    ensures superPageSize == SuperPageSize(g)
    ensures superBlock ==
      Chain(g.block, Factor(g, Channel, false), Factor(g, Package, false), Factor(g, Die, false), Factor(g, Plane, false))
  {
    superBlock, superPageSize := MultiplyAxis(Channel in g.superblock, g.channel, g.block, g.pageSize);
    superBlock, superPageSize := MultiplyAxis(Package in g.superblock, g.package, superBlock, superPageSize);
    superBlock, superPageSize := MultiplyAxis(Die in g.superblock, g.die, superBlock, superPageSize);
    superBlock, superPageSize := MultiplyAxis(g.multiPlane || Plane in g.superblock, g.plane, superBlock, superPageSize);
  }

  /** The PAL constructor: how many superblocks there are, and how many pages a superpage has. */
  method ComputeSizes(g: Geometry) returns (superBlock: nat, superPageSize: nat, pageInSuperPage: nat)
    requires Sane(g)
    ensures superBlock == SuperBlock(g) && pageInSuperPage == PageInSuperPage(g)
    ensures superPageSize == g.pageSize * (PageInSuperPage(g) * if g.multiPlane then g.plane else 1)
  {
    hide Chain, SuperPageSize, Factor, Product, SuperBlock, PageInSuperPage;
    superBlock, superPageSize := MultiplyAxes(g);
    ChainSuperBlock(g);
    ChainSuperPage(g);
    Cancel(g.pageSize, PageInSuperPage(g) * if g.multiPlane then g.plane else 1);
    pageInSuperPage := superPageSize / g.pageSize;
    if g.multiPlane {
      assert pageInSuperPage == g.plane * PageInSuperPage(g);
      Cancel(g.plane, PageInSuperPage(g));
      pageInSuperPage := pageInSuperPage / g.plane;
    }
  }

  lemma Chained(a: nat, b: nat, c: nat, d: nat, e: nat)
    ensures a * b * c * d * e == a * (b * c * d * e)
  {
    Regroup(a, b, c);
    Regroup(a, b * c, d);
    Regroup(a, b * c * d, e);
  }

  // ---- convertCPDPBP ----

  /** The addresses of the flagged units below n, in the order of the units. */
  ghost function Flagged(g: Geometry, block: nat, page: nat, flags: seq<bool>, n: nat): seq<Address>
    requires Sane(g) && n <= |flags|
  {
    if n == 0 then []
    else Flagged(g, block, page, flags, n - 1) + if flags[n - 1] then [AddressOf(g, block, page, n - 1)] else []
  }

  ghost predicate IsFlagged(g: Geometry, block: nat, page: nat, flags: seq<bool>, n: nat, a: Address)
    requires Sane(g) && n <= |flags|
  {
    exists u :: 0 <= u < n && flags[u] && a == AddressOf(g, block, page, u)
  }

  /** Exactly the flagged units are listed, each once. */
  lemma {:induction false} FlaggedExactly(g: Geometry, block: nat, page: nat, flags: seq<bool>, n: nat)
    requires Sane(g) && block < SuperBlock(g) && n <= |flags| == PageInSuperPage(g)
    ensures var s := Flagged(g, block, page, flags, n);
      && (forall a :: a in s <==> IsFlagged(g, block, page, flags, n, a))
      && (forall i, j :: 0 <= i < j < |s| ==> s[i] != s[j])
  {
    if n > 0 {
      FlaggedExactly(g, block, page, flags, n - 1);
      forall u | 0 <= u < n - 1
        ensures AddressOf(g, block, page, u) != AddressOf(g, block, page, n - 1)
      {
        AddressInRange(g, block, page, u);
        AddressInRange(g, block, page, n - 1);
      }
      hide AddressOf, PageInSuperPage, SuperBlock;
      assert !IsFlagged(g, block, page, flags, n - 1, AddressOf(g, block, page, n - 1));
      forall a
        ensures IsFlagged(g, block, page, flags, n, a) <==>
          IsFlagged(g, block, page, flags, n - 1, a) || (flags[n - 1] && a == AddressOf(g, block, page, n - 1))
      {
      }
    }
  }

  /** The coordinates ds along the axes. */
  function PutAll(axes: seq<Axis>, ds: seq<nat>, a: Address): Address
    requires |axes| <= |ds|
    decreases |axes|
  {
    if axes == [] then a else PutAll(axes[1..], ds[1..], Put(a, axes[0], ds[0]))
  }

  ghost function Number(g: Geometry, axes: seq<Axis>, ds: seq<nat>): nat
    requires |axes| <= |ds|
    decreases |axes|
  {
    if axes == [] then 0 else ds[0] + Size(g, axes[0]) * Number(g, axes[1..], ds[1..])
  }

  lemma {:induction false} NumberDigits(g: Geometry, axes: seq<Axis>, ds: seq<nat>, a: Address)
    requires Sane(g) && |axes| <= |ds| && forall k :: 0 <= k < |axes| ==> ds[k] < Size(g, axes[k])
    ensures FromIndex(g, axes, Number(g, axes, ds), a).0 == PutAll(axes, ds, a)
    decreases |axes|
  {
    if axes != [] {
      DivMod(Number(g, axes, ds), Size(g, axes[0]), Number(g, axes[1..], ds[1..]), ds[0]);
      NumberDigits(g, axes[1..], ds[1..], Put(a, axes[0], ds[0]));
    }
  }

  /** The range of loop number d: axis d of the striped ones, or a single pass. */
  function Range(g: Geometry, axes: seq<Axis>, d: nat): nat {
    if d < |axes| then Size(g, axes[d]) else 1
  }

  lemma NumberNest(g: Geometry, axes: seq<Axis>, l: nat, k: nat, j: nat, i: nat)
    requires |axes| <= 4
    requires l < Range(g, axes, 0) && k < Range(g, axes, 1) && j < Range(g, axes, 2) && i < Range(g, axes, 3)
    ensures Number(g, axes, [l, k, j, i])
      == l + Range(g, axes, 0) * (k + Range(g, axes, 1) * (j + Range(g, axes, 2) * i))
  {
    assert [l, k, j, i][1..] == [k, j, i] && [k, j, i][1..] == [j, i] && [j, i][1..] == [i];
    hide Size;
    if |axes| > 0 {
      var a1 := axes[1..];
      assert Number(g, axes, [l, k, j, i]) == l + Size(g, axes[0]) * Number(g, a1, [k, j, i]);
      if |axes| > 1 {
        var a2 := a1[1..];
        assert Number(g, a1, [k, j, i]) == k + Size(g, axes[1]) * Number(g, a2, [j, i]);
        if |axes| > 2 {
          var a3 := a2[1..];
          assert Number(g, a2, [j, i]) == j + Size(g, axes[2]) * Number(g, a3, [i]);
          assert |axes| == 4 ==> a3[1..] == [];
          assert Number(g, a3, [i]) == i;
        }
      }
    }
  }

  /** Where the loops are, as the number of units they have passed. */
  ghost function Nest(v0: nat, v1: nat, v2: nat, l: nat, k: nat, j: nat, i: nat): nat {
    l + v0 * (k + v1 * (j + v2 * i))
  }

  lemma NestCarries(v0: nat, v1: nat, v2: nat, k: nat, j: nat, i: nat)
    ensures Nest(v0, v1, v2, v0, k, j, i) == Nest(v0, v1, v2, 0, k + 1, j, i)
    ensures Nest(v0, v1, v2, 0, v1, j, i) == Nest(v0, v1, v2, 0, 0, j + 1, i)
    ensures Nest(v0, v1, v2, 0, 0, v2, i) == Nest(v0, v1, v2, 0, 0, 0, i + 1)
  {
    var y := j + v2 * i;
    assert v1 + v1 * y == v1 * (y + 1);
    assert v0 + v0 * (k + v1 * y) == v0 * (k + 1 + v1 * y);
    assert v2 + v2 * i == v2 * (i + 1);
  }

  lemma NestBelow(v0: nat, v1: nat, v2: nat, v3: nat, l: nat, k: nat, j: nat, i: nat)
    requires l < v0 && k < v1 && j < v2 && i < v3
    ensures Nest(v0, v1, v2, l, k, j, i) < v0 * (v1 * (v2 * v3))
  {
    Below(i, v3, v2, j);
    Below(j + v2 * i, v2 * v3, v1, k);
    Below(k + v1 * (j + v2 * i), v1 * (v2 * v3), v0, l);
  }

  lemma RangesCapacity(g: Geometry, axes: seq<Axis>)
    requires |axes| <= 4
    ensures Capacity(g, axes) == Range(g, axes, 0) * (Range(g, axes, 1) * (Range(g, axes, 2) * Range(g, axes, 3)))
  {
    hide Size;
    if |axes| > 0 {
      assert Capacity(g, axes) == Size(g, axes[0]) * Capacity(g, axes[1..]);
      if |axes| > 1 {
        assert Capacity(g, axes[1..]) == Size(g, axes[1]) * Capacity(g, axes[1..][1..]);
        if |axes| > 2 {
          assert Capacity(g, axes[1..][1..]) == Size(g, axes[2]) * Capacity(g, axes[1..][1..][1..]);
          if |axes| > 3 {
            assert axes[1..][1..][1..][1..] == [];
            assert Capacity(g, axes[1..][1..][1..]) == Size(g, axes[3]) * 1;
          }
        }
      }
    }
  }

  lemma NestUnit(g: Geometry, axes: seq<Axis>, l: nat, k: nat, j: nat, i: nat, a: Address)
    requires Sane(g) && |axes| <= 4
    requires l < Range(g, axes, 0) && k < Range(g, axes, 1) && j < Range(g, axes, 2) && i < Range(g, axes, 3)
    ensures FromIndex(g, axes, Nest(Range(g, axes, 0), Range(g, axes, 1), Range(g, axes, 2), l, k, j, i), a).0
      == PutAll(axes, [l, k, j, i], a)
  {
    NumberNest(g, axes, l, k, j, i);
    NumberDigits(g, axes, [l, k, j, i], a);
  }

  /** The nest of loops over the striped axes.  The source has one nest for every number of striped
      axes; here the loops that a nest does not have make a single pass. */
  method ListUnits(g: Geometry, axes: seq<Axis>, addr: Address, flags: seq<bool>, ghost block: nat, ghost page: nat)
      returns (list: seq<Address>, tmp: nat)
    requires Sane(g) && |axes| <= 4 && |flags| == Capacity(g, axes)
    requires forall u: nat :: AddressOf(g, block, page, u) == FromIndex(g, axes, u, addr).0
    ensures tmp == |flags| && list == Flagged(g, block, page, flags, |flags|)
  {
    hide AddressOf, FromIndex, Range, Capacity;
    var v0, v1, v2, v3 := Range(g, axes, 0), Range(g, axes, 1), Range(g, axes, 2), Range(g, axes, 3);
    RangesCapacity(g, axes);
    hide Nest;
    NestStart(v0, v1, v2);
    list, tmp := [], 0;
    for i := 0 to v3
      invariant tmp == Nest(v0, v1, v2, 0, 0, 0, i) <= |flags| && list == Flagged(g, block, page, flags, tmp)
    {
      for j := 0 to v2
        invariant tmp == Nest(v0, v1, v2, 0, 0, j, i) <= |flags| && list == Flagged(g, block, page, flags, tmp)
      {
        for k := 0 to v1
          invariant tmp == Nest(v0, v1, v2, 0, k, j, i) <= |flags| && list == Flagged(g, block, page, flags, tmp)
        {
          for l := 0 to v0
            invariant tmp == Nest(v0, v1, v2, l, k, j, i) <= |flags| && list == Flagged(g, block, page, flags, tmp)
          {
            NestBelow(v0, v1, v2, v3, l, k, j, i);
            NestUnit(g, axes, l, k, j, i, addr);
            NestNext(v0, v1, v2, l, k, j, i);
            if flags[tmp] {
              list := list + [PutAll(axes, [l, k, j, i], addr)];
            }
            tmp := tmp + 1;
          }
          NestCarries(v0, v1, v2, k, j, i);
        }
        NestCarries(v0, v1, v2, 0, j, i);
      }
      NestCarries(v0, v1, v2, 0, 0, i);
    }
    NestEnd(v0, v1, v2, v3);
  }

  lemma NestStart(v0: nat, v1: nat, v2: nat)
    ensures Nest(v0, v1, v2, 0, 0, 0, 0) == 0
  {
  }

  lemma NestNext(v0: nat, v1: nat, v2: nat, l: nat, k: nat, j: nat, i: nat)
    ensures Nest(v0, v1, v2, l + 1, k, j, i) == Nest(v0, v1, v2, l, k, j, i) + 1
  {
  }

  lemma NestEnd(v0: nat, v1: nat, v2: nat, v3: nat)
    ensures Nest(v0, v1, v2, 0, 0, 0, v3) == v0 * (v1 * (v2 * v3))
  {
  }

  lemma TakeAxis(g: Geometry, order: seq<Axis>, tmp: nat, addr: Address)
    requires Sane(g) && order != []
    ensures 0 < Size(g, order[0])
    ensures var x := order[0];
      && Axes(g, order, true) == (if Used(g, x) && x in g.superblock then [x] else []) + Axes(g, order[1..], true)
      && FromIndex(g, Axes(g, order, false), tmp, addr)
        == if Used(g, x) && x !in g.superblock then
             FromIndex(g, Axes(g, order[1..], false), tmp / Size(g, x), Put(addr, x, tmp % Size(g, x)))
           else FromIndex(g, Axes(g, order[1..], false), tmp, addr)
  {
    var x := order[0];
    if Used(g, x) && x !in g.superblock {
      assert Axes(g, order, false)[1..] == Axes(g, order[1..], false);
    }
  }

  /** When the axes of rest are still to come, tmp is what is left of the superblock number, addr has
      the coordinates so far, and ptr lists the striped axes so far. */
  ghost predicate Taken(g: Geometry, block: nat, page: nat, rest: seq<Axis>, tmp: nat, addr: Address, ptr: seq<Axis>)
    requires Sane(g)
  {
    && FromIndex(g, Axes(g, rest, false), tmp, addr)
       == FromIndex(g, Axes(g, g.order, false), block, Address(0, 0, 0, 0, 0, page))
    && ptr + Axes(g, rest, true) == Axes(g, g.order, true)
  }

  lemma TakenNone(g: Geometry, block: nat, page: nat)
    requires Sane(g)
    ensures Taken(g, block, page, g.order, block, Address(0, 0, 0, 0, 0, page), [])
  {
    hide FromIndex, Axes;
  }

  lemma TakenAxis(g: Geometry, block: nat, page: nat, rest: seq<Axis>, tmp: nat, addr: Address, ptr: seq<Axis>)
    requires Sane(g) && rest != [] && Taken(g, block, page, rest, tmp, addr, ptr)
    ensures 0 < Size(g, rest[0])
    ensures var x := rest[0];
      if !Used(g, x) then Taken(g, block, page, rest[1..], tmp, addr, ptr)
      else if x in g.superblock then Taken(g, block, page, rest[1..], tmp, addr, ptr + [x])
      else Taken(g, block, page, rest[1..], tmp / Size(g, x), Put(addr, x, tmp % Size(g, x)), ptr)
  {
    TakeAxis(g, rest, tmp, addr);
    hide FromIndex, Axes, Used, Size, Put;
    var x := rest[0];
    if Used(g, x) && x in g.superblock {
      assert (ptr + [x]) + Axes(g, rest[1..], true) == ptr + ([x] + Axes(g, rest[1..], true));
    }
  }

  lemma TakenAll(g: Geometry, block: nat, page: nat, tmp: nat, addr: Address, ptr: seq<Axis>)
    requires Sane(g) && Taken(g, block, page, [], tmp, addr, ptr)
    ensures ptr == Axes(g, g.order, true)
    ensures forall u: nat :: AddressOf(g, block, page, u) == FromIndex(g, ptr, u, addr.(block := tmp)).0
  {
  }

  /** The loop over the allocation order: it divides the free axes out of the superblock number, and
      collects the striped ones. */
  method TakeFreeAxes(g: Geometry, blockIndex: nat, pageIndex: nat) returns (addr: Address, ptr: seq<Axis>)
    requires Sane(g)
    ensures ptr == Axes(g, g.order, true) && |ptr| <= 4
    ensures forall u: nat :: AddressOf(g, blockIndex, pageIndex, u) == FromIndex(g, ptr, u, addr).0
  {
    hide FromIndex, Axes, AddressOf, Used, Size, Put, Taken;
    var tmp: nat := blockIndex;
    addr, ptr := Address(0, 0, 0, 0, 0, pageIndex), [];
    TakenNone(g, blockIndex, pageIndex);
    assert g.order[0..] == g.order;
    for i := 0 to |g.order|
      invariant Taken(g, blockIndex, pageIndex, g.order[i..], tmp, addr, ptr) && |ptr| <= i
    {
      var x := g.order[i];
      assert g.order[i..][1..] == g.order[i + 1..];
      TakenAxis(g, blockIndex, pageIndex, g.order[i..], tmp, addr, ptr);
      if Used(g, x) {
        if x in g.superblock {
          ptr := ptr + [x];
        } else {
          addr := Put(addr, x, tmp % Size(g, x));
          tmp := tmp / Size(g, x);
        }
      }
    }
    assert g.order[|g.order|..] == [];
    TakenAll(g, blockIndex, pageIndex, tmp, addr, ptr);
    addr := addr.(block := tmp);
  }

  /** The flash blocks that a request touches.  Without the random tweak, a flag set of another size
      stands for the whole superpage. */
  method ConvertCPDPBP(g: Geometry, blockIndex: nat, pageIndex: nat, ioFlag: seq<bool>, randomTweak: bool)
      returns (r: Result<seq<Address>>)
    requires Sane(g)
    ensures r.Panic? <==> randomTweak && |ioFlag| != PageInSuperPage(g)
    ensures r.Panic? ==> r.why == IoFlagSize
    ensures r.Ok? ==>
      var n := PageInSuperPage(g);
      var flags := if |ioFlag| == n then ioFlag else seq(n, _ => true);
      r.value == Flagged(g, blockIndex, pageIndex, flags, n)
  {
    Capacities(g);
    hide PageInSuperPage, Capacity, SuperBlock;
    var pageInSuperPage := PageInSuperPage(g);
    if randomTweak && |ioFlag| != pageInSuperPage {
      return Panic(IoFlagSize);
    }
    var flags := ioFlag;
    if !randomTweak && |ioFlag| != pageInSuperPage {
      flags := seq(pageInSuperPage, _ => true);
    }
    var addr, ptr := TakeFreeAxes(g, blockIndex, pageIndex);
    var list, count := ListUnits(g, ptr, addr, flags, blockIndex, pageIndex);
    if count != pageInSuperPage {
      return Panic(IoFlagCount);
    }
    r := Ok(list);
  }

  // ---- Allocation string ----

  /** The axis that a character stands for, if any. */
  function AxisOf(c: char): (axis: seq<Axis>)
    ensures |axis| <= 1
  {
    if c == 'C' || c == 'c' then [Channel]
    else if c == 'W' || c == 'w' then [Package]
    else if c == 'D' || c == 'd' then [Die]
    else if c == 'P' || c == 'p' then [Plane]
    else []
  }

  function Letters(s: string): seq<Axis> {
    if s == [] then [] else Letters(s[..|s| - 1]) + AxisOf(s[|s| - 1])
  }

  /** The first four axes that the string names. */
  function Named(s: string): seq<Axis> {
    if |Letters(s)| <= 4 then Letters(s) else Letters(s)[..4]
  }

  function PlaneFirst(order: seq<Axis>): seq<Axis> {
    if Plane in order then
      var k := PlaneAt(order);
      [Plane] + order[..k] + order[k + 1..]
    else order
  }

  function PlaneAt(order: seq<Axis>): (k: nat)
    requires Plane in order
    ensures k < |order| && order[k] == Plane && Plane !in order[..k]
  {
    if order[0] == Plane then 0 else 1 + PlaneAt(order[1..])
  }

  lemma {:induction false} LettersPrefix(s: string, n: nat)
    requires n <= |s|
    ensures Letters(s[..n]) <= Letters(s)
  {
    if n < |s| {
      LettersPrefix(s[..|s| - 1], n);
      assert s[..|s| - 1][..n] == s[..n];
    } else {
      assert s[..n] == s;
    }
  }

  lemma NamedPrefix(s: string, n: nat, read: seq<Axis>)
    requires n <= |s| && read == Letters(s[..n]) && |read| <= 4 && (n == |s| || |read| == 4)
    ensures read == Named(s)
  {
    LettersPrefix(s, n);
    assert s[..|s|] == s;
  }

  lemma DistinctAppend(s: seq<Axis>, x: Axis)
    ensures Distinct(s + [x]) <==> Distinct(s) && x !in s
  {
    var t := s + [x];
    assert forall i :: 0 <= i < |s| ==> t[i] == s[i];
    if x in s {
      var i :| 0 <= i < |s| && s[i] == x;
      assert t[i] == t[|s|];
    }
    if Distinct(t) {
      forall i, j | 0 <= i < j < |s|
        ensures s[i] != s[j]
      {
        assert t[i] != t[j];
      }
    }
  }

  lemma AllChecked(order: seq<Axis>, check: set<Axis>)
    requires |order| <= 4 && forall x :: x in check <==> x in order
    ensures Permutation(order) <==> Distinct(order) && check == {Channel, Package, Die, Plane}
    ensures Permutation(order) ==> |order| == 4
  {
    if Permutation(order) {
      PermutationHasAll(order);
      forall x: Axis
        ensures x in check && x in {Channel, Package, Die, Plane}
      {
        assert x.Channel? || x.Package? || x.Die? || x.Plane?;
      }
    }
    if check == {Channel, Package, Die, Plane} {
      assert Channel in order && Package in order && Die in order && Plane in order;
    }
  }

  /** The letters of s[..n] named the axes read, which check collects; fail says that one came twice. */
  ghost predicate Reading(s: string, n: nat, read: seq<Axis>, check: set<Axis>, fail: bool) {
    n <= |s| && read == Letters(s[..n]) && (forall x :: x in check <==> x in read) && (!fail <==> Distinct(read))
  }

  lemma ReadNone(s: string)
    ensures Reading(s, 0, [], {}, false)
  {
  }

  lemma ReadNext(s: string, n: nat, read: seq<Axis>, check: set<Axis>, fail: bool)
    requires Reading(s, n, read, check, fail) && n < |s|
    ensures var letter := AxisOf(s[n]);
      if letter == [] then Reading(s, n + 1, read, check, fail)
      else Reading(s, n + 1, read + [letter[0]], check + {letter[0]}, fail || letter[0] in check)
  {
    hide AxisOf, Distinct;
    var letter := AxisOf(s[n]);
    assert s[..n + 1][..n] == s[..n];
    assert Letters(s[..n + 1]) == read + letter;
    if letter == [] {
      assert read + letter == read;
    } else {
      assert letter == [letter[0]];
      DistinctAppend(read, letter[0]);
    }
  }

  lemma ReadAll(s: string, n: nat, read: seq<Axis>, check: set<Axis>, fail: bool)
    requires Reading(s, n, read, check, fail) && |read| <= 4 && (n == |s| || |read| == 4)
    ensures read == Named(s)
    ensures Permutation(read) <==> !fail && check == {Channel, Package, Die, Plane}
    ensures Permutation(read) ==> |read| == 4
  {
    hide Letters, Named, Distinct, Permutation;
    NamedPrefix(s, n, read);
    AllChecked(read, check);
  }

  method ReadLetters(s: string, a: array<Axis>) returns (fail: bool)
    requires a.Length == 4
    modifies a
    ensures !fail <==> Permutation(Named(s))
    ensures !fail ==> a[..] == Named(s)
  {
    hide Distinct, Permutation, Named, AxisOf, Reading;
    var i, check: set<Axis>, n := 0, {}, 0;
    fail := false;
    ReadNone(s);
    assert a[..0] == [];
    while n < |s| && i < 4
      invariant n <= |s| && i <= 4
      invariant Reading(s, n, a[..i], check, fail)
    {
      var letter := AxisOf(s[n]);
      ReadNext(s, n, a[..i], check, fail);
      if |letter| > 0 {
        if letter[0] in check {
          fail := true;
        }
        ghost var before := a[..i];
        a[i] := letter[0];
        i := i + 1;
        check := check + {letter[0]};
        assert a[..i] == before + [letter[0]];
      }
      n := n + 1;
    }
    ReadAll(s, n, a[..i], check, fail);
    if check != {Channel, Package, Die, Plane} {
      fail := true;
    }
    assert i == 4 ==> a[..] == a[..i];
  }

  /** Config::update: the string must name every axis once within its first four letters; in
      multi-plane mode the plane then moves to the front. */
  method ParseAllocation(s: string, multiPlane: bool) returns (r: Result<seq<Axis>>)
    ensures r.Ok? <==> Permutation(Named(s))
    ensures r.Ok? ==> r.value == (if multiPlane then PlaneFirst(Named(s)) else Named(s)) && Permutation(r.value)
    ensures r.Panic? ==> r.why == BadAllocationString
  {
    hide Named;
    var pageAllocation := new Axis[4](_ => Channel);
    var fail := ReadLetters(s, pageAllocation);
    if multiPlane {
      MovePlaneFirst(pageAllocation);
    }
    if fail {
      return Panic(BadAllocationString);
    }
    PlaneFirstPermutes(Named(s));
    r := Ok(pageAllocation[..]);
  }

  lemma PlaneFirstPermutes(order: seq<Axis>)
    requires Permutation(order)
    ensures Permutation(PlaneFirst(order))
  {
  }

  lemma {:induction false} PlaneAtIs(was: seq<Axis>, i: nat)
    requires i < |was| && was[i] == Plane && Plane !in was[..i]
    ensures PlaneAt(was) == i
  {
    if i > 0 {
      assert was[..i][0] == was[0] && was[1..][..i - 1] == was[..i][1..];
      PlaneAtIs(was[1..], i - 1);
    }
  }

  lemma FirstPlane(was: seq<Axis>, i: nat)
    requires i < |was| && was[i] == Plane && Plane !in was[..i]
    ensures PlaneFirst(was) == [Plane] + was[..i] + was[i + 1..]
  {
    PlaneAtIs(was, i);
  }

  lemma NoPlane(was: seq<Axis>)
    requires Plane !in was
    ensures PlaneFirst(was) == was
  {
  }

  /** Elements 0 to i - 1 move to the places 1 to i. */
  method ShiftBack(a: array<Axis>, i: nat)
    requires i < a.Length
    modifies a
    ensures a[1..] == old(a[..i]) + old(a[i + 1..])
  {
    for j := i downto 0
      invariant forall k :: 0 <= k <= j ==> k < i ==> a[k] == old(a[k])
      invariant forall k :: j < k <= i ==> a[k] == old(a[k - 1])
      invariant forall k :: i < k < a.Length ==> a[k] == old(a[k])
    {
      a[j + 1] := a[j];
    }
  }

  method MovePlaneFirst(a: array<Axis>)
    modifies a
    ensures a[..] == PlaneFirst(old(a[..]))
  {
    hide PlaneFirst;
    ghost var was := a[..];
    for i := 0 to a.Length
      invariant a[..] == was && Plane !in was[..i]
    {
      if a[i] == Plane {
        FirstPlane(was, i);
        ShiftBack(a, i);
        a[0] := Plane;
        assert a[..] == [Plane] + a[1..];
        return;
      }
    }
    NoPlane(was);
  }
}

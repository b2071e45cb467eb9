/** How a superblock number and a unit in it name a flash block (pal/pal_old.cc), for any allocation
    order, superblock mask and plane mode. */
module AddressMap {
  import opened Arithmetic

  datatype Axis = Channel | Package | Die | Plane

  /** sizes of the device, and the configuration that pal/config.cc reads; order[0] varies fastest */
  datatype Geometry = Geometry(
    channel: nat, package: nat, die: nat, plane: nat, block: nat, pageSize: nat,
    superblock: set<Axis>, order: seq<Axis>, multiPlane: bool)

  datatype Address = Address(channel: nat, package: nat, die: nat, plane: nat, block: nat, page: nat)

  function Size(g: Geometry, x: Axis): nat {
    match x
    case Channel => g.channel
    case Package => g.package
    case Die => g.die
    case Plane => g.plane
  }

  function Get(a: Address, x: Axis): nat {
    match x
    case Channel => a.channel
    case Package => a.package
    case Die => a.die
    case Plane => a.plane
  }

  function Put(a: Address, x: Axis, v: nat): Address {
    match x
    case Channel => a.(channel := v)
    case Package => a.(package := v)
    case Die => a.(die := v)
    case Plane => a.(plane := v)
  }

  predicate Distinct(s: seq<Axis>) {
    forall i, j :: 0 <= i < j < |s| ==> s[i] != s[j]
  }

  predicate Permutation(order: seq<Axis>) {
    |order| == 4 && Distinct(order)
  }

  predicate Sane(g: Geometry) {
    && 0 < g.channel && 0 < g.package && 0 < g.die && 0 < g.plane && 0 < g.block && 0 < g.pageSize
    && Permutation(g.order)
  }

  /** Multi-plane operation takes the plane out of the address arithmetic. */
  predicate Used(g: Geometry, x: Axis) {
    !(g.multiPlane && x == Plane)
  }

  /** The axes inside a superblock, or those that tell superblocks apart, in the order given. */
  function Axes(g: Geometry, order: seq<Axis>, striped: bool): (s: seq<Axis>)
    ensures forall x :: x in s <==> x in order && Used(g, x) && (x in g.superblock <==> striped)
    ensures Distinct(order) ==> Distinct(s)
  {
    if order == [] then []
    else
      var rest := Axes(g, order[1..], striped);
      if Used(g, order[0]) && (order[0] in g.superblock <==> striped) then [order[0]] + rest else rest
  }

  /** The coordinates of number n along the axes, and what is left of n. */
  function FromIndex(g: Geometry, axes: seq<Axis>, n: nat, a: Address): (Address, nat)
    requires Sane(g)
    decreases |axes|
  {
    if axes == [] then (a, n)
    else FromIndex(g, axes[1..], n / Size(g, axes[0]), Put(a, axes[0], n % Size(g, axes[0])))
  }

  function AddressOf(g: Geometry, block: nat, page: nat, unit: nat): Address
    requires Sane(g)
  {
    var (a, rest) := FromIndex(g, Axes(g, g.order, false), block, Address(0, 0, 0, 0, 0, page));
    FromIndex(g, Axes(g, g.order, true), unit, a.(block := rest)).0
  }

  // ---- Inverse ----

  ghost function ToIndex(g: Geometry, axes: seq<Axis>, a: Address, rest: nat): nat
    requires Sane(g)
    decreases |axes|
  {
    if axes == [] then rest
    else Get(a, axes[0]) + Size(g, axes[0]) * ToIndex(g, axes[1..], a, rest)
  }

  ghost function BlockOf(g: Geometry, a: Address): nat
    requires Sane(g)
  {
    ToIndex(g, Axes(g, g.order, false), a, a.block)
  }

  ghost function UnitOf(g: Geometry, a: Address): nat
    requires Sane(g)
  {
    ToIndex(g, Axes(g, g.order, true), a, 0)
  }

  /** How many numbers the axes tell apart. */
  function Capacity(g: Geometry, axes: seq<Axis>): nat
    decreases |axes|
  {
    if axes == [] then 1 else Size(g, axes[0]) * Capacity(g, axes[1..])
  }

  ghost predicate InRange(g: Geometry, a: Address) {
    && (forall x :: Get(a, x) < Size(g, x)) && a.block < g.block
    && (g.multiPlane ==> a.plane == 0)
  }

  lemma PutOnly(a: Address, x: Axis, v: nat)
    ensures var p := Put(a, x, v);
      && p.block == a.block && p.page == a.page
      && forall y :: Get(p, y) == if y == x then v else Get(a, y)
  {
  }

  lemma SizePositive(g: Geometry, x: Axis)
    requires Sane(g)
    ensures 0 < Size(g, x)
  {
  }

  lemma {:induction false} FromTo(g: Geometry, axes: seq<Axis>, n: nat, a: Address)
    requires Sane(g) && Distinct(axes)
    ensures var (b, rest) := FromIndex(g, axes, n, a);
      && ToIndex(g, axes, b, rest) == n
      && b.block == a.block && b.page == a.page
      && (forall x :: x in axes ==> Get(b, x) < Size(g, x))
      && (forall x :: x !in axes ==> Get(b, x) == Get(a, x))
    decreases |axes|
  {
    hide Get, Put, Size, Sane;
    if axes != [] {
      SizePositive(g, axes[0]);
      var s := Size(g, axes[0]);
      var q, r := n / s, n % s;
      Quotient(n, s);
      var p := Put(a, axes[0], r);
      PutOnly(a, axes[0], r);
      FromTo(g, axes[1..], q, p);
      assert axes[0] !in axes[1..];
    }
  }

  lemma {:induction false} ToFrom(g: Geometry, axes: seq<Axis>, a: Address, rest: nat, from: Address)
    requires Sane(g) && Distinct(axes) && forall x :: x in axes ==> Get(a, x) < Size(g, x)
    ensures var (b, left) := FromIndex(g, axes, ToIndex(g, axes, a, rest), from);
      && left == rest && b.block == from.block && b.page == from.page
      && forall x :: Get(b, x) == if x in axes then Get(a, x) else Get(from, x)
    decreases |axes|
  {
    hide Get, Put, Size, Sane;
    if axes != [] {
      SizePositive(g, axes[0]);
      var s, q := Size(g, axes[0]), ToIndex(g, axes[1..], a, rest);
      DivMod(ToIndex(g, axes, a, rest), s, q, Get(a, axes[0]));
      PutOnly(from, axes[0], Get(a, axes[0]));
      ToFrom(g, axes[1..], a, rest, Put(from, axes[0], Get(a, axes[0])));
      assert axes[0] !in axes[1..];
    }
  }

  /** The number is in range exactly when what is left of it is. */
  lemma {:induction false} ToIndexRange(g: Geometry, axes: seq<Axis>, a: Address, rest: nat, bound: nat)
    requires Sane(g) && forall x :: x in axes ==> Get(a, x) < Size(g, x)
    ensures ToIndex(g, axes, a, rest) < Capacity(g, axes) * bound <==> rest < bound
    decreases |axes|
  {
    if axes != [] {
      var s, q, c := Size(g, axes[0]), ToIndex(g, axes[1..], a, rest), Capacity(g, axes[1..]);
      ToIndexRange(g, axes[1..], a, rest, bound);
      Regroup(s, c, bound);
      Below(q, c * bound, s, Get(a, axes[0]));
    }
  }

  // ---- Sizes ----

  /** The sizes that the PAL constructor multiplies out, axis by axis. */
  function Factor(g: Geometry, x: Axis, striped: bool): nat {
    if Used(g, x) && (x in g.superblock <==> striped) then Size(g, x) else 1
  }

  function Product(g: Geometry, order: seq<Axis>, striped: bool): nat {
    if order == [] then 1 else Factor(g, order[0], striped) * Product(g, order[1..], striped)
  }

  lemma AxesNext(g: Geometry, order: seq<Axis>, striped: bool)
    requires order != []
    ensures var s, rest := Axes(g, order, striped), Axes(g, order[1..], striped);
      if Used(g, order[0]) && (order[0] in g.superblock <==> striped) then s == [order[0]] + rest && s[1..] == rest
      else s == rest
  {
    hide Used;
  }

  lemma {:induction false} CapacityProduct(g: Geometry, order: seq<Axis>, striped: bool)
    ensures Capacity(g, Axes(g, order, striped)) == Product(g, order, striped)
  {
    hide Used, Size, Axes;
    if order == [] {
      NoAxes(g, striped);
    } else {
      CapacityProduct(g, order[1..], striped);
      AxesNext(g, order, striped);
    }
  }

  lemma NoAxes(g: Geometry, striped: bool)
    ensures Axes(g, [], striped) == []
  {
  }

  lemma {:induction false} ProductTake(g: Geometry, order: seq<Axis>, striped: bool, k: nat)
    requires k < |order|
    ensures Product(g, order, striped) == Factor(g, order[k], striped) * Product(g, order[..k] + order[k + 1..], striped)
  {
    if k == 0 {
      assert order[..0] + order[1..] == order[1..];
    } else {
      var f0, fk := Factor(g, order[0], striped), Factor(g, order[k], striped);
      var less := order[..k] + order[k + 1..];
      assert less[1..] == order[1..][..k - 1] + order[1..][k..] && less[0] == order[0];
      ProductTake(g, order[1..], striped, k - 1);
      Regroup(f0, fk, Product(g, less[1..], striped));
      assert Product(g, less, striped) == f0 * Product(g, less[1..], striped);
    }
  }

  lemma Without(t: seq<Axis>, k: nat)
    requires Distinct(t) && k < |t|
    ensures Distinct(t[..k] + t[k + 1..])
    ensures forall x :: x in t[..k] + t[k + 1..] <==> x in t && x != t[k]
  {
    var less := t[..k] + t[k + 1..];
    assert forall i :: 0 <= i < |less| ==> less[i] == t[if i < k then i else i + 1];
    forall x | x in t && x != t[k]
      ensures x in less
    {
      var i :| 0 <= i < |t| && t[i] == x;
      assert less[if i < k then i else i - 1] == x;
    }
  }

  /** The order of multiplication does not matter. */
  lemma {:induction false} ProductOrder(g: Geometry, s: seq<Axis>, t: seq<Axis>, striped: bool)
    requires Distinct(s) && Distinct(t) && forall x :: x in s <==> x in t
    ensures Product(g, s, striped) == Product(g, t, striped)
  {
    if s == [] {
      assert forall i :: 0 <= i < |t| ==> t[i] in s;
    } else {
      assert s[0] in t;
      var k :| 0 <= k < |t| && t[k] == s[0];
      var less := t[..k] + t[k + 1..];
      ProductTake(g, t, striped, k);
      assert s[..0] + s[0 + 1..] == s[1..];
      Without(s, 0);
      Without(t, k);
      assert forall x :: x in s[1..] <==> x in s && x != s[0];
      ProductOrder(g, s[1..], less, striped);
    }
  }

  lemma PermutationHasAll(order: seq<Axis>)
    requires Permutation(order)
    ensures forall x: Axis :: x in order
  {
    forall x: Axis
      ensures x in order
    {
      assert order[0] == x || order[1] == x || order[2] == x || order[3] == x;
    }
  }

  const CANONICAL := [Channel, Package, Die, Plane]

  /** superBlock and pageInSuperPage as the PAL constructor leaves them. */
  function SuperBlock(g: Geometry): nat {
    g.block * Product(g, CANONICAL, false)
  }

  function PageInSuperPage(g: Geometry): nat {
    Product(g, CANONICAL, true)
  }

  lemma Capacities(g: Geometry)
    requires Sane(g)
    ensures Capacity(g, Axes(g, g.order, false)) * g.block == SuperBlock(g)
    ensures Capacity(g, Axes(g, g.order, true)) == PageInSuperPage(g)
  {
    PermutationHasAll(g.order);
    PermutationHasAll(CANONICAL);
    CapacityProduct(g, g.order, false);
    CapacityProduct(g, g.order, true);
    ProductOrder(g, g.order, CANONICAL, false);
    ProductOrder(g, g.order, CANONICAL, true);
  }

  // ---- The map is a bijection ----

  /** What AddressOf computes: the digits of both numbers. */
  lemma Decoded(g: Geometry, block: nat, page: nat, unit: nat) returns (left: nat)
    requires Sane(g)
    ensures var a := AddressOf(g, block, page, unit);
      && a.page == page && BlockOf(g, a) == block
      && ToIndex(g, Axes(g, g.order, true), a, left) == unit
      && (forall x :: Used(g, x) ==> Get(a, x) < Size(g, x))
      && (forall x :: !Used(g, x) ==> Get(a, x) == 0)
  {
    var free, striped := Axes(g, g.order, false), Axes(g, g.order, true);
    var start := Address(0, 0, 0, 0, 0, page);
    PermutationHasAll(g.order);
    assert forall x :: x in free || x in striped <==> Used(g, x);
    assert forall x :: Get(start, x) == 0;
    var (a, rest) := FromIndex(g, free, block, start);
    var (b, l) := FromIndex(g, striped, unit, a.(block := rest));
    assert b == AddressOf(g, block, page, unit);
    assert BlockOf(g, b) == ToIndex(g, free, b, b.block);
    hide FromIndex, ToIndex, Axes, AddressOf, BlockOf;
    FromTo(g, free, block, start);
    FromTo(g, striped, unit, a.(block := rest));
    SameIndex(g, free, a, b, rest);
    left := l;
  }

  /** Every superblock number and unit in range names an address in range, from which both can be
      recovered. */
  lemma AddressInRange(g: Geometry, block: nat, page: nat, unit: nat)
    requires Sane(g) && block < SuperBlock(g) && unit < PageInSuperPage(g)
    ensures var a := AddressOf(g, block, page, unit);
      InRange(g, a) && a.page == page && BlockOf(g, a) == block && UnitOf(g, a) == unit
  {
    hide FromIndex, Axes, Capacity, SuperBlock, PageInSuperPage, Permutation, ToIndex;
    var left := Decoded(g, block, page, unit);
    var a := AddressOf(g, block, page, unit);
    Capacities(g);
    hide AddressOf;
    assert a.plane == Get(a, Plane);
    ToIndexRange(g, Axes(g, g.order, false), a, a.block, g.block);
    ToIndexRange(g, Axes(g, g.order, true), a, left, 1);
  }

  lemma {:induction false} SameIndex(g: Geometry, axes: seq<Axis>, a: Address, b: Address, rest: nat)
    requires Sane(g) && forall x :: x in axes ==> Get(a, x) == Get(b, x)
    ensures ToIndex(g, axes, a, rest) == ToIndex(g, axes, b, rest)
    decreases |axes|
  {
    if axes != [] {
      SameIndex(g, axes[1..], a, b, rest);
    }
  }

  /** Every address in range is named by one superblock number and unit in range. */
  lemma AddressCovered(g: Geometry, a: Address)
    requires Sane(g) && InRange(g, a)
    ensures BlockOf(g, a) < SuperBlock(g) && UnitOf(g, a) < PageInSuperPage(g)
    ensures AddressOf(g, BlockOf(g, a), a.page, UnitOf(g, a)) == a
  {
    var free, striped := Axes(g, g.order, false), Axes(g, g.order, true);
    var start := Address(0, 0, 0, 0, 0, a.page);
    PermutationHasAll(g.order);
    Capacities(g);
    ToIndexRange(g, free, a, a.block, g.block);
    ToIndexRange(g, striped, a, 0, 1);
    ToFrom(g, free, a, a.block, start);
    var (b, rest) := FromIndex(g, free, BlockOf(g, a), start);
    ToFrom(g, striped, a, 0, b.(block := rest));
    var c := AddressOf(g, BlockOf(g, a), a.page, UnitOf(g, a));
    assert forall x :: Get(c, x) == Get(a, x);
    assert c.channel == Get(c, Channel) && c.package == Get(c, Package) && c.die == Get(c, Die) && c.plane == Get(c, Plane);
  }

  /** Distinct superblock numbers and units never share a flash block. */
  lemma AddressInjective(g: Geometry, b1: nat, u1: nat, p1: nat, b2: nat, u2: nat, p2: nat)
    requires Sane(g) && b1 < SuperBlock(g) && b2 < SuperBlock(g)
    requires u1 < PageInSuperPage(g) && u2 < PageInSuperPage(g)
    requires AddressOf(g, b1, p1, u1).(page := 0) == AddressOf(g, b2, p2, u2).(page := 0)
    ensures b1 == b2 && u1 == u2
  {
    AddressInRange(g, b1, p1, u1);
    AddressInRange(g, b2, p2, u2);
    var a1, a2 := AddressOf(g, b1, p1, u1), AddressOf(g, b2, p2, u2);
    assert a1.block == a1.(page := 0).block == a2.block;
    assert forall x :: Get(a1, x) == Get(a1.(page := 0), x) && Get(a2, x) == Get(a2.(page := 0), x);
    SameIndex(g, Axes(g, g.order, false), a1, a2, a1.block);
    SameIndex(g, Axes(g, g.order, true), a1, a2, 0);
  }
}

/** selectVictimBlock of ftl/page_mapping.cc in GC mode 0: the lightest of the full blocks. */
module VictimSelection {
  import opened FlashBlock
  import opened FtlModel
  import opened FtlOperations

  /** The policies whose weight is linear in the page counts.  Time and randomness are left out. */
  datatype Policy = Greedy | Reco(refreshWeight: real)

  function Weight(policy: Policy, v: BlockView): real {
    match policy
    case Greedy => CountAll(v.valid) as real
    case Reco(w) => CountAll(v.valid) as real - w * v.refreshed as real
  }

  type Weighed = (nat, real)

  predicate Apart(a: Weighed, b: Weighed) {
    a.0 != b.0
  }

  ghost predicate DistinctBlocks(s: seq<Weighed>) {
    forall i, j {:trigger Apart(s[i], s[j])} :: 0 <= i < j < |s| ==> Apart(s[i], s[j])
  }

  predicate NotHeavier(a: Weighed, b: Weighed) {
    a.1 <= b.1
  }

  ghost predicate Ascending(s: seq<Weighed>) {
    forall i, j {:trigger NotHeavier(s[i], s[j])} :: 0 <= i < j < |s| ==> NotHeavier(s[i], s[j])
  }

  ghost predicate SameElements(a: seq<Weighed>, b: seq<Weighed>) {
    forall x :: x in a <==> x in b
  }

  /** calculateVictimWeight: every full block with its weight, and no other */
  method CalculateVictimWeight(c: Config, policy: Policy, blocks: map<nat, BlockView>) returns (weight: seq<Weighed>)
    requires forall b :: b in blocks ==> b < c.totalBlocks
    ensures DistinctBlocks(weight)
    ensures forall x :: x in weight <==>
      x.0 in blocks && NextPage(blocks[x.0]) == c.pagesInBlock && x.1 == Weight(policy, blocks[x.0])
  {
    weight := [];
    for b := 0 to c.totalBlocks
      invariant DistinctBlocks(weight)
      invariant forall x :: x in weight <==>
        x.0 < b && x.0 in blocks && NextPage(blocks[x.0]) == c.pagesInBlock && x.1 == Weight(policy, blocks[x.0])
    {
      if b in blocks && NextPage(blocks[b]) == c.pagesInBlock {
        var x := (b, Weight(policy, blocks[b]));
        forall i, j | 0 <= i < j < |weight + [x]| ensures Apart((weight + [x])[i], (weight + [x])[j]) {
          assert weight[i] in weight;
          assert j < |weight| ==> Apart(weight[i], weight[j]);
        }
        weight := weight + [x];
      }
    }
  }

  lemma InsertedApart(s: seq<Weighed>, k: nat, x: Weighed)
    requires DistinctBlocks(s) && k <= |s| && forall i :: 0 <= i < |s| ==> s[i].0 != x.0
    ensures DistinctBlocks(s[..k] + [x] + s[k..])
  {
    var r := s[..k] + [x] + s[k..];
    forall i, j | 0 <= i < j < |r| ensures Apart(r[i], r[j]) {
      var i', j' := if i < k then i else i - 1, if j < k then j else j - 1;
      assert i != k && j != k ==> r[i] == s[i'] && r[j] == s[j'] && Apart(s[i'], s[j']);
    }
  }

  lemma InsertedAscending(s: seq<Weighed>, k: nat, x: Weighed)
    requires Ascending(s) && k <= |s| && (forall i :: k <= i < |s| ==> x.1 < s[i].1) && (0 < k ==> s[k - 1].1 <= x.1)
    ensures Ascending(s[..k] + [x] + s[k..])
  {
    var r := s[..k] + [x] + s[k..];
    forall i, j | 0 <= i < j < |r| ensures NotHeavier(r[i], r[j]) {
      var i', j' := if i < k then i else i - 1, if j < k then j else j - 1;
      assert i != k && j != k ==> r[i] == s[i'] && r[j] == s[j'] && NotHeavier(s[i'], s[j']);
      assert j == k && i < k - 1 ==> NotHeavier(s[i], s[k - 1]);
    }
  }

  method InsertByWeight(s: seq<Weighed>, x: Weighed) returns (r: seq<Weighed>)
    requires Ascending(s) && DistinctBlocks(s) && forall i :: 0 <= i < |s| ==> s[i].0 != x.0
    ensures Ascending(r) && DistinctBlocks(r) && SameElements(r, s + [x]) && |r| == |s| + 1
  {
    var k := |s|;
    while 0 < k && x.1 < s[k - 1].1
      invariant 0 <= k <= |s| && forall i :: k <= i < |s| ==> x.1 < s[i].1
    {
      k := k - 1;
    }
    r := s[..k] + [x] + s[k..];
    InsertedApart(s, k, x);
    InsertedAscending(s, k, x);
    assert s == s[..k] + s[k..];
  }

  /** The effect of std::sort by weight; the order of equal weights is one of those possible. */
  method SortByWeight(s: seq<Weighed>) returns (r: seq<Weighed>)
    requires DistinctBlocks(s)
    ensures Ascending(r) && DistinctBlocks(r) && SameElements(r, s) && |r| == |s|
  {
    r := [];
    for i := 0 to |s|
      invariant Ascending(r) && DistinctBlocks(r) && SameElements(r, s[..i]) && |r| == i
    {
      forall j | 0 <= j < |r| ensures r[j].0 != s[i].0 {
        assert r[j] in r && r[j] in s[..i];
        var k :| 0 <= k < i && s[k] == r[j];
        assert Apart(s[k], s[i]);
      }
      assert s[..i + 1] == s[..i] + [s[i]];
      r := InsertByWeight(r, s[i]);
    }
    assert s[..|s|] == s;
  }

  /** The victims are n blocks of the list, or all of them if it has fewer; none that is left out is
      lighter. */
  ghost predicate LightestOf(weight: seq<Weighed>, victims: seq<nat>, n: nat) {
    && |victims| == (if n < |weight| then n else |weight|)
    && (forall i, j :: 0 <= i < j < |victims| ==> victims[i] != victims[j])
    && (forall v :: v in victims ==> exists x :: x in weight && x.0 == v)
    && (forall x :: x in weight && |weight| <= n ==> x.0 in victims)
    && (forall x, y :: x in weight && y in weight && x.0 in victims && y.0 !in victims ==> x.1 <= y.1)
  }

  lemma BlocksApart(s: seq<Weighed>, i: nat, k: nat)
    requires DistinctBlocks(s) && i < |s| && k < |s| && i != k
    ensures s[i].0 != s[k].0
  {
    if i < k {
      assert Apart(s[i], s[k]);
    } else {
      assert Apart(s[k], s[i]);
    }
  }

  lemma FrontLightest(weight: seq<Weighed>, sorted: seq<Weighed>, victims: seq<nat>, n: nat)
    requires Ascending(sorted) && DistinctBlocks(sorted) && SameElements(sorted, weight) && |sorted| == |weight|
    requires |victims| == (if n < |sorted| then n else |sorted|)
    requires forall j :: 0 <= j < |victims| ==> victims[j] == sorted[j].0
    ensures LightestOf(weight, victims, n)
  {
    forall i, j | 0 <= i < j < |victims| ensures victims[i] != victims[j] {
      assert Apart(sorted[i], sorted[j]);
    }
    forall v | v in victims ensures exists x :: x in weight && x.0 == v {
      var i :| 0 <= i < |victims| && victims[i] == v;
      assert sorted[i] in sorted && sorted[i] in weight;
    }
    forall x | x in weight && |weight| <= n ensures x.0 in victims {
      var i :| 0 <= i < |sorted| && sorted[i] == x;
      assert victims[i] == x.0;
    }
    forall x, y | x in weight && y in weight && x.0 in victims && y.0 !in victims ensures x.1 <= y.1 {
      var i :| 0 <= i < |sorted| && sorted[i] == x;
      var j :| 0 <= j < |sorted| && sorted[j] == y;
      var k :| 0 <= k < |victims| && victims[k] == x.0;
      FrontMembers(sorted, victims);
      assert |victims| <= j;
      if i != k {
        BlocksApart(sorted, i, k);
      }
      assert NotHeavier(sorted[i], sorted[j]);
    }
  }

  lemma FrontMembers(sorted: seq<Weighed>, victims: seq<nat>)
    requires |victims| <= |sorted| && forall j :: 0 <= j < |victims| ==> victims[j] == sorted[j].0
    ensures forall j :: 0 <= j < |victims| ==> sorted[j].0 in victims
  {
    forall j | 0 <= j < |victims| ensures sorted[j].0 in victims {
      assert victims[j] == sorted[j].0;
    }
  }

  /** The end of selectVictimBlock: sort, and take the first n. */
  method FirstLightest(weight: seq<Weighed>, n: nat) returns (victims: seq<nat>)
    requires DistinctBlocks(weight)
    ensures LightestOf(weight, victims, n)
  {
    hide LightestOf, Ascending, DistinctBlocks, SameElements;
    var sorted := SortByWeight(weight);
    var count := if n < |sorted| then n else |sorted|;
    victims := [];
    for i := 0 to count
      invariant |victims| == i && forall j :: 0 <= j < i ==> victims[j] == sorted[j].0
    {
      victims := victims + [sorted[i].0];
    }
    FrontLightest(weight, sorted, victims, n);
  }

  /** At most n victims, lightest first; if there are fewer than n, every full block is one. */
  ghost predicate Lightest(c: Config, policy: Policy, s: Ftl, victims: seq<nat>, n: nat) {
    && VictimsOk(c, s, victims)
    && |victims| <= n
    && (|victims| < n ==> forall b :: Full(c, s, b) ==> b in victims)
    && (forall v, b :: v in victims && Full(c, s, b) && b !in victims ==>
      v in s.blocks && Weight(policy, s.blocks[v]) <= Weight(policy, s.blocks[b]))
  }

  /** selectVictimBlock up to its bookkeeping of bReclaimMore */
  method SelectLightest(c: Config, policy: Policy, ghost s: Ftl, blocks: map<nat, BlockView>, n: nat)
    returns (victims: seq<nat>)
    requires s.blocks == blocks && forall b :: b in blocks ==> b < c.totalBlocks
    ensures Lightest(c, policy, s, victims, n)
  {
    var weight := CalculateVictimWeight(c, policy, blocks);
    victims := FirstLightest(weight, n);
    AllLightest(c, policy, s, weight, victims, n);
  }

  /** The list has every full block with its weight, and no other. */
  ghost predicate WeighsFull(c: Config, policy: Policy, blocks: map<nat, BlockView>, weight: seq<Weighed>) {
    && DistinctBlocks(weight)
    && forall x :: x in weight <==>
      x.0 in blocks && NextPage(blocks[x.0]) == c.pagesInBlock && x.1 == Weight(policy, blocks[x.0])
  }

  lemma AllLightest(c: Config, policy: Policy, s: Ftl, weight: seq<Weighed>, victims: seq<nat>, n: nat)
    requires WeighsFull(c, policy, s.blocks, weight) && LightestOf(weight, victims, n)
    ensures Lightest(c, policy, s, victims, n)
  {
    hide Weight;
    forall b | Full(c, s, b) ensures (b, Weight(policy, s.blocks[b])) in weight {
    }
    forall v | v in victims ensures Full(c, s, v) && (v, Weight(policy, s.blocks[v])) in weight {
      var x :| x in weight && x.0 == v;
    }
    forall v, b | v in victims && Full(c, s, b) && b !in victims
      ensures Weight(policy, s.blocks[v]) <= Weight(policy, s.blocks[b])
    {
      var x, y := (v, Weight(policy, s.blocks[v])), (b, Weight(policy, s.blocks[b]));
      assert x.0 in victims && y.0 !in victims;
    }
  }
}

/** The drawing loop of selectVictimBlock (ftl/page_mapping.cc), which the random and the d-choice policy
    use: blocks are drawn until enough are selected.  The draws are arbitrary. */
module RandomSelection {
  import opened FlashBlock
  import opened FtlModel
  import opened FtlOperations
  import opened VictimSelection

  ghost predicate LegalDraws(weight: seq<Weighed>, draws: seq<nat>) {
    forall k :: 0 <= k < |draws| ==> draws[k] < |weight|
  }

  /** Element d can be selected: it was not before, and its block is not excepted. */
  predicate Open(weight: seq<Weighed>, except: seq<nat>, taken: seq<nat>, d: nat)
    requires d < |weight|
  {
    d !in taken && weight[d].0 !in except
  }

  /** The elements that the draws have selected, as long as the loop goes on. */
  function Taken(weight: seq<Weighed>, except: seq<nat>, range: nat, draws: seq<nat>): seq<nat>
    requires LegalDraws(weight, draws)
    decreases |draws|
  {
    if draws == [] then []
    else
      var taken, d := Taken(weight, except, range, draws[..|draws| - 1]), draws[|draws| - 1];
      if |taken| < range && Open(weight, except, taken, d) then taken + [d] else taken
  }

  ghost function Selectable(weight: seq<Weighed>, except: seq<nat>, n: nat): set<nat>
    requires n <= |weight|
  {
    set i: nat | i < n && weight[i].0 !in except
  }

  ghost function Elements(s: seq<nat>): set<nat> {
    set x | x in s
  }

  lemma ElementsNext(s: seq<nat>, x: nat)
    requires x !in s
    ensures Elements(s + [x]) == Elements(s) + {x} && |Elements(s + [x])| == |Elements(s)| + 1
  {
  }

  /** What is selected are different elements that may be selected, and no more than asked for. */
  lemma {:induction false} TakenOk(weight: seq<Weighed>, except: seq<nat>, range: nat, draws: seq<nat>)
    requires LegalDraws(weight, draws)
    ensures var taken := Taken(weight, except, range, draws);
      && |taken| <= range && |Elements(taken)| == |taken| && Elements(taken) <= Selectable(weight, except, |weight|)
      && forall i, j :: 0 <= i < j < |taken| ==> taken[i] != taken[j]
    decreases |draws|
  {
    if draws == [] {
      assert Elements([]) == {};
    } else {
      TakenOk(weight, except, range, draws[..|draws| - 1]);
      var taken, d := Taken(weight, except, range, draws[..|draws| - 1]), draws[|draws| - 1];
      if |taken| < range && Open(weight, except, taken, d) {
        ElementsNext(taken, d);
      }
    }
  }

  lemma {:induction false} SubsetSize(a: set<nat>, b: set<nat>)
    requires a <= b
    ensures |a| <= |b|
    decreases |a|
  {
    if a != {} {
      var x :| x in a;
      SubsetSize(a - {x}, b - {x});
    }
  }

  function Upto(n: nat): (draws: seq<nat>)
    ensures |draws| == n && forall k :: 0 <= k < n ==> draws[k] == k
  {
    seq(n, k => k)
  }

  lemma SelectableNext(weight: seq<Weighed>, except: seq<nat>, n: nat)
    requires n < |weight|
    ensures |Selectable(weight, except, 0)| == 0
    ensures |Selectable(weight, except, n + 1)| == |Selectable(weight, except, n)| + if weight[n].0 !in except then 1 else 0
  {
    assert Selectable(weight, except, 0) == {};
    var s := Selectable(weight, except, n);
    assert Selectable(weight, except, n + 1) == if weight[n].0 !in except then s + {n} else s;
  }

  /** Drawing every element once selects what can be selected, up to the limit. */
  lemma {:induction false} TakenInOrder(weight: seq<Weighed>, except: seq<nat>, range: nat, n: nat)
    requires n <= |weight|
    ensures LegalDraws(weight, Upto(n))
    ensures var taken, all := Taken(weight, except, range, Upto(n)), |Selectable(weight, except, n)|;
      |taken| == (if all < range then all else range) && forall k :: 0 <= k < |taken| ==> taken[k] < n
  {
    hide Selectable;
    if n > 0 {
      assert Upto(n)[..n - 1] == Upto(n - 1);
      SelectableNext(weight, except, n - 1);
      TakenInOrder(weight, except, range, n - 1);
    } else if 0 < |weight| {
      SelectableNext(weight, except, 0);
    } else {
      NothingSelectable(weight, except);
    }
  }

  lemma NothingSelectable(weight: seq<Weighed>, except: seq<nat>)
    requires weight == []
    ensures |Selectable(weight, except, 0)| == 0
  {
    assert Selectable(weight, except, 0) == {};
  }

  /** The loop can end if and only if at least as many blocks as it wants are full and not excepted;
      otherwise it goes on for ever, whatever is drawn. */
  lemma EndsExactly(weight: seq<Weighed>, except: seq<nat>, range: nat)
    ensures (exists draws :: LegalDraws(weight, draws) && |Taken(weight, except, range, draws)| == range)
      <==> range <= |Selectable(weight, except, |weight|)|
  {
    hide Selectable, Taken;
    if range <= |Selectable(weight, except, |weight|)| {
      TakenInOrder(weight, except, range, |weight|);
    }
    forall draws | LegalDraws(weight, draws)
      ensures |Taken(weight, except, range, draws)| <= |Selectable(weight, except, |weight|)|
    {
      TakenOk(weight, except, range, draws);
      SubsetSize(Elements(Taken(weight, except, range, draws)), Selectable(weight, except, |weight|));
    }
  }

  /** With one full block, a second one is drawn for ever. */
  lemma OneFullBlock(c: Config, policy: Policy, s: Ftl, b: nat, weight: seq<Weighed>, except: seq<nat>, draws: seq<nat>)
    requires WeighsFull(c, policy, s.blocks, weight) && LegalDraws(weight, draws)
    requires forall x :: Full(c, s, x) ==> x == b
    ensures |Taken(weight, except, 2, draws)| < 2
  {
    hide Weight, DistinctBlocks;
    forall k | 0 <= k < |weight| ensures weight[k].0 == b {
      assert weight[k] in weight;
      assert Full(c, s, weight[k].0);
    }
    if 1 < |weight| {
      BlocksApart(weight, 0, 1);
    }
    TakenOk(weight, except, 2, draws);
    var taken := Taken(weight, except, 2, draws);
    forall k | 0 <= k < |taken| ensures taken[k] < 1 {
      assert taken[k] in Elements(taken);
    }
  }

  /** The selected elements themselves */
  ghost predicate Picks(weight: seq<Weighed>, taken: seq<nat>, selected: seq<Weighed>) {
    && |selected| == |taken|
    && forall k :: 0 <= k < |taken| ==> taken[k] < |weight| && selected[k] == weight[taken[k]]
  }

  lemma PicksApart(weight: seq<Weighed>, taken: seq<nat>, selected: seq<Weighed>)
    requires DistinctBlocks(weight) && Picks(weight, taken, selected)
    requires forall i, j :: 0 <= i < j < |taken| ==> taken[i] != taken[j]
    ensures DistinctBlocks(selected)
  {
    forall i, j | 0 <= i < j < |selected|
      ensures Apart(selected[i], selected[j])
    {
      var a, b := taken[i], taken[j];
      assert a < b ==> Apart(weight[a], weight[b]);
      assert b < a ==> Apart(weight[b], weight[a]);
    }
  }

  /** The drawing loop, with the draws that it makes until it ends.  Where the source overwrites the
      number of a selected block, marked says which ones it has overwritten. */
  method DrawBlocks(weight: seq<Weighed>, except: seq<nat>, range: nat, draws: seq<nat>)
      returns (ended: bool, selected: seq<Weighed>)
    requires LegalDraws(weight, draws)
    ensures ended <==> |Taken(weight, except, range, draws)| == range
    ensures Picks(weight, Taken(weight, except, range, draws), selected)
  {
    var marked := new bool[|weight|](_ => false);
    var k := 0;
    selected := [];
    assert draws[..0] == [];
    while |selected| < range && k < |draws|
      invariant k <= |draws| && LegalDraws(weight, draws[..k])
      invariant Picks(weight, Taken(weight, except, range, draws[..k]), selected)
      invariant forall i :: 0 <= i < |weight| ==> marked[i] == (i in Taken(weight, except, range, draws[..k]))
    {
      var d := draws[k];
      assert draws[..k + 1][..k] == draws[..k];
      if !marked[d] && weight[d].0 !in except {
        selected := selected + [weight[d]];
        marked[d] := true;
      }
      k := k + 1;
    }
    ended := |selected| >= range;
    TakenOk(weight, except, range, draws[..k]);
    if ended {
      TakenEnough(weight, except, range, draws, k);
    } else {
      assert draws[..k] == draws;
    }
  }

  lemma {:induction false} TakenEnough(weight: seq<Weighed>, except: seq<nat>, range: nat, draws: seq<nat>, k: nat)
    requires LegalDraws(weight, draws) && k <= |draws| && LegalDraws(weight, draws[..k])
    requires |Taken(weight, except, range, draws[..k])| >= range
    ensures Taken(weight, except, range, draws) == Taken(weight, except, range, draws[..k])
    decreases |draws|
  {
    if k == |draws| {
      assert draws[..k] == draws;
    } else {
      assert draws[..|draws| - 1][..k] == draws[..k];
      TakenEnough(weight, except, range, draws[..|draws| - 1], k);
    }
  }

  /** What the drawn blocks are, and that victims are the lightest of them. */
  ghost predicate DrawnVictims(c: Config, s: Ftl, weight: seq<Weighed>, except: seq<nat>, taken: seq<nat>,
                               victims: seq<nat>, n: nat) {
    && VictimsOk(c, s, victims)
    && |victims| == (if n < |taken| then n else |taken|)
    && (forall v :: v in victims ==> v !in except)
    && (forall k :: 0 <= k < |taken| ==> taken[k] < |weight|)
    && (forall i, j :: 0 <= i < |taken| && 0 <= j < |taken| ==>
      weight[taken[i]].0 in victims && weight[taken[j]].0 !in victims ==> weight[taken[i]].1 <= weight[taken[j]].1)
  }

  lemma DrawnLightest(c: Config, policy: Policy, s: Ftl, weight: seq<Weighed>, except: seq<nat>, taken: seq<nat>,
                      selected: seq<Weighed>, victims: seq<nat>, n: nat)
    requires WeighsFull(c, policy, s.blocks, weight) && Picks(weight, taken, selected)
    requires Elements(taken) <= Selectable(weight, except, |weight|)
    requires LightestOf(selected, victims, n)
    ensures DrawnVictims(c, s, weight, except, taken, victims, n)
  {
    hide Weight;
    forall v | v in victims ensures Full(c, s, v) && v !in except {
      var x :| x in selected && x.0 == v;
      var k :| 0 <= k < |selected| && selected[k] == x;
      assert taken[k] in Elements(taken) && weight[taken[k]] in weight;
    }
    forall i, j | 0 <= i < |taken| && 0 <= j < |taken| && weight[taken[i]].0 in victims && weight[taken[j]].0 !in victims
      ensures weight[taken[i]].1 <= weight[taken[j]].1
    {
      assert selected[i] in selected && selected[j] in selected;
    }
  }

  /** The random policy draws as many blocks as it takes, and the d-choice policy a multiple of them.
      The victims are distinct full blocks, none of them excepted, and the lightest of those drawn. */
  method SelectDrawn(c: Config, policy: Policy, ghost s: Ftl, weight: seq<Weighed>, except: seq<nat>, n: nat,
                     range: nat, draws: seq<nat>)
      returns (ended: bool, victims: seq<nat>)
    requires WeighsFull(c, policy, s.blocks, weight) && LegalDraws(weight, draws)
    ensures ended <==> |Taken(weight, except, range, draws)| == range
    ensures ended ==> DrawnVictims(c, s, weight, except, Taken(weight, except, range, draws), victims, n)
  {
    hide DrawnVictims, LightestOf, Selectable, Elements, Weight, Taken;
    ghost var taken := Taken(weight, except, range, draws);
    var selected;
    ended, selected := DrawBlocks(weight, except, range, draws);
    if !ended {
      return false, [];
    }
    TakenOk(weight, except, range, draws);
    PicksApart(weight, taken, selected);
    victims := FirstLightest(selected, n);
    DrawnLightest(c, policy, s, weight, except, taken, selected, victims, n);
  }
}

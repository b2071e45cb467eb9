/** The busy time that the host interface reports (hil/hil.cc): the time covered by requests, however
    much they overlap. */
module BusyTime {

  /** A request occupies the device from begin until just before end. */
  datatype Interval = Interval(begin: nat, end: nat)

  datatype Stat = Stat(busy: int, lastBusyAt: nat)

  function Update(s: Stat, i: Interval): Stat {
    if i.end <= s.lastBusyAt then s
    else Stat(s.busy + i.end - (if i.begin < s.lastBusyAt then s.lastBusyAt else i.begin), i.end)
  }

  function Account(reqs: seq<Interval>): Stat
    decreases |reqs|
  {
    if reqs == [] then Stat(0, 0) else Update(Account(reqs[..|reqs| - 1]), reqs[|reqs| - 1])
  }

  // ---- The union of the intervals ----

  predicate Occupies(i: Interval, t: nat) {
    i.begin <= t < i.end
  }

  ghost function Ticks(i: Interval): set<nat> {
    set t: nat | t < i.end && Occupies(i, t)
  }

  ghost function Covered(reqs: seq<Interval>): set<nat>
    decreases |reqs|
  {
    if reqs == [] then {} else Covered(reqs[..|reqs| - 1]) + Ticks(reqs[|reqs| - 1])
  }

  /** How long the device was occupied. */
  ghost function UnionSize(reqs: seq<Interval>): nat {
    |Covered(reqs)|
  }

  lemma {:induction false} TicksSize(from: nat, hi: nat)
    requires from <= hi
    ensures |Ticks(Interval(from, hi))| == hi - from
    decreases hi
  {
    if from < hi {
      TicksSize(from, hi - 1);
      assert Ticks(Interval(from, hi)) == Ticks(Interval(from, hi - 1)) + {hi - 1};
    } else {
      assert Ticks(Interval(from, hi)) == {};
    }
  }

  /** What request i covers below the tick that the account has reached is covered already. */
  ghost predicate NoGap(before: seq<Interval>, i: Interval) {
    forall t: nat :: Occupies(i, t) && t < Account(before).lastBusyAt ==> t in Covered(before)
  }

  ghost predicate Gapless(reqs: seq<Interval>) {
    forall k :: 0 <= k < |reqs| ==> NoGap(reqs[..k], reqs[k])
  }

  ghost predicate Proper(reqs: seq<Interval>) {
    forall k :: 0 <= k < |reqs| ==> reqs[k].begin <= reqs[k].end
  }

  /** The part of a request that the account has not reached yet, and the part that it has. */
  ghost function Ahead(s: Stat, i: Interval): set<nat> {
    set t: nat | t < i.end && Occupies(i, t) && t >= s.lastBusyAt
  }

  ghost function Missed(covered: set<nat>, s: Stat, i: Interval): set<nat> {
    set t: nat | t < i.end && Occupies(i, t) && t < s.lastBusyAt && t !in covered
  }

  lemma AheadSize(s: Stat, i: Interval)
    requires i.begin <= i.end
    ensures Update(s, i).busy == s.busy + |Ahead(s, i)|
  {
    if i.end <= s.lastBusyAt {
      assert Ahead(s, i) == {};
    } else {
      var from := if i.begin < s.lastBusyAt then s.lastBusyAt else i.begin;
      TicksSize(from, i.end);
      assert Ahead(s, i) == Ticks(Interval(from, i.end));
    }
  }

  /** How far one request takes the account away from the union. */
  lemma Extend(covered: set<nat>, s: Stat, i: Interval)
    requires i.begin <= i.end && forall t :: t in covered ==> t < s.lastBusyAt
    ensures |covered + Ticks(i)| - Update(s, i).busy == |covered| - s.busy + |Missed(covered, s, i)|
    ensures forall t :: t in covered + Ticks(i) ==> t < Update(s, i).lastBusyAt
  {
    AheadSize(s, i);
    var ahead, missed := Ahead(s, i), Missed(covered, s, i);
    assert covered + Ticks(i) == covered + missed + ahead;
    assert covered !! missed && covered + missed !! ahead;
  }

  /** The busy time never exceeds the size of the union of the intervals, and is equal to it exactly
      when no request reaches back into a gap. */
  lemma {:induction false} BusyExactly(reqs: seq<Interval>)
    requires Proper(reqs)
    ensures Account(reqs).busy <= UnionSize(reqs)
    ensures Account(reqs).busy == UnionSize(reqs) <==> Gapless(reqs)
    ensures forall t :: t in Covered(reqs) ==> t < Account(reqs).lastBusyAt
    decreases |reqs|
  {
    if reqs != [] {
      var before, i := reqs[..|reqs| - 1], reqs[|reqs| - 1];
      BusyExactly(before);
      var s, missed := Account(before), Missed(Covered(before), Account(before), i);
      Extend(Covered(before), s, i);
      GaplessLast(reqs);
      assert missed == {} <==> NoGap(before, i) by {
        assert forall t: nat :: t in missed <==> Occupies(i, t) && t < s.lastBusyAt && t !in Covered(before);
      }
    }
  }

  lemma GaplessLast(reqs: seq<Interval>)
    requires reqs != []
    ensures Gapless(reqs) <==> Gapless(reqs[..|reqs| - 1]) && NoGap(reqs[..|reqs| - 1], reqs[|reqs| - 1])
  {
    var before := reqs[..|reqs| - 1];
    assert forall k :: 0 <= k < |before| ==> before[..k] == reqs[..k] && before[k] == reqs[k];
  }

  ghost predicate InOrder(reqs: seq<Interval>) {
    Proper(reqs) && forall k, l :: 0 <= k < l < |reqs| ==> reqs[k].begin <= reqs[l].begin
  }

  /** Requests in the order of their begins, as the host interface reports them, leave no gap: the
      busy time is the size of their union. */
  lemma {:induction false} BusyIsUnion(reqs: seq<Interval>)
    requires InOrder(reqs)
    ensures Gapless(reqs) && Account(reqs).busy == UnionSize(reqs)
    ensures reqs != [] ==>
      forall t: nat :: reqs[|reqs| - 1].begin <= t < Account(reqs).lastBusyAt ==> t in Covered(reqs)
    decreases |reqs|
  {
    BusyExactly(reqs);
    if reqs != [] {
      var before, i := reqs[..|reqs| - 1], reqs[|reqs| - 1];
      BusyIsUnion(before);
      assert before != [] ==> before[|before| - 1].begin <= i.begin;
      GaplessLast(reqs);
    }
  }

  /** A request that begins before the earlier ones, as none of the host layer does, is not counted. */
  lemma BackwardIsMissed()
    ensures var reqs := [Interval(10, 20), Interval(0, 5)];
      Proper(reqs) && !Gapless(reqs) && Account(reqs).busy == 10 && UnionSize(reqs) == 15
  {
    var reqs := [Interval(10, 20), Interval(0, 5)];
    assert reqs[..1] == [Interval(10, 20)] && reqs[..1][..0] == [];
    TicksSize(10, 20);
    TicksSize(0, 5);
    assert Covered(reqs) == Ticks(reqs[0]) + Ticks(reqs[1]) && Ticks(reqs[0]) !! Ticks(reqs[1]);
    BusyExactly(reqs);
  }
}

/** The event engine (sim/engine.cc): a list of scheduled events, kept sorted by tick, against a
    reference that only remembers when each pending event is due. */
module EventEngine {
  import opened Outcome

  /** stamp is the moment of scheduling, counted in effective schedulings. */
  datatype Entry = Entry(id: nat, tick: nat, stamp: nat)

  /** known stands for eventList; fired records the handlers called so far. */
  datatype State = State(simTick: nat, counter: nat, stopped: bool, known: set<nat>, queue: seq<Entry>,
                         clock: nat, fired: seq<Entry>)

  function Init(): State {
    State(0, 0, false, {}, [], 0, [])
  }

  // ---- Operations ----

  /** The first entry that is due later than tick, or the end of the list. */
  function Position(q: seq<Entry>, tick: nat): (k: nat)
    ensures k <= |q|
    ensures forall i :: 0 <= i < k ==> q[i].tick <= tick
    ensures k < |q| ==> q[k].tick > tick
  {
    if q == [] || q[0].tick > tick then 0 else 1 + Position(q[1..], tick)
  }

  /** The entry of event id, or the end of the list. */
  function Find(q: seq<Entry>, id: nat): (k: nat)
    ensures k <= |q|
    ensures forall i :: 0 <= i < k ==> q[i].id != id
    ensures k < |q| ==> q[k].id == id
  {
    if q == [] || q[0].id == id then 0 else 1 + Find(q[1..], id)
  }

  function Drop(q: seq<Entry>, k: nat): seq<Entry>
    requires k < |q|
  {
    q[..k] + q[k + 1..]
  }

  function Splice(q: seq<Entry>, at: nat, e: Entry): (r: seq<Entry>)
    requires at <= |q|
    ensures |r| == |q| + 1
  {
    q[..at] + [e] + q[at..]
  }

  function Remove(q: seq<Entry>, id: nat): seq<Entry> {
    var k := Find(q, id);
    if k < |q| then Drop(q, k) else q
  }

  /** Insertion comes first, so that the position of the old entry is still part of the list. */
  function Insert(q: seq<Entry>, e: Entry): seq<Entry> {
    var at := Position(q, e.tick);
    var was := Find(q, e.id);
    var inserted := Splice(q, at, e);
    if was == |q| then inserted
    else Drop(inserted, if was < at then was else was + 1)
  }

  function Allocate(s: State): Result<State> {
    if s.counter + 1 in s.known then Panic(AllocateFailed)
    else Ok(s.(counter := s.counter + 1, known := s.known + {s.counter + 1}))
  }

  function Schedule(s: State, id: nat, tick: nat): Result<State> {
    if id !in s.known then Panic(UnknownEvent)
    else
      var due := if tick < s.simTick then s.simTick else tick;
      var was := Find(s.queue, id);
      if was < |s.queue| && s.queue[was].tick == due then Ok(s)
      else Ok(s.(queue := Insert(s.queue, Entry(id, due, s.clock)), clock := s.clock + 1))
  }

  function Deschedule(s: State, id: nat): Result<State> {
    if id !in s.known then Panic(UnknownEvent)
    else Ok(s.(queue := Remove(s.queue, id)))
  }

  function Deallocate(s: State, id: nat): Result<State> {
    if id !in s.known then Panic(UnknownEvent)
    else Ok(s.(queue := Remove(s.queue, id), known := s.known - {id}))
  }

  /** Whatever the handler does comes as further operations. */
  function DoNextEvent(s: State): Result<State> {
    if s.stopped || s.queue == [] then Ok(s)
    else
      var now := s.queue[0];
      if now.id !in s.known then Panic(UnknownEvent)
      else Ok(s.(simTick := now.tick, queue := s.queue[1..], fired := s.fired + [now]))
  }

  datatype Op =
    | AllocateOp | ScheduleOp(id: nat, tick: nat) | DescheduleOp(id: nat) | DeallocateOp(id: nat) | NextOp | StopOp

  function Apply(s: State, o: Op): Result<State> {
    match o
    case AllocateOp => Allocate(s)
    case ScheduleOp(id, tick) => Schedule(s, id, tick)
    case DescheduleOp(id) => Deschedule(s, id)
    case DeallocateOp(id) => Deallocate(s, id)
    case NextOp => DoNextEvent(s)
    case StopOp => Ok(s.(stopped := true))
  }

  function Run(s: State, os: seq<Op>): Result<State>
    decreases |os|
  {
    if os == [] then Ok(s)
    else
      var next :- Apply(s, os[0]);
      Run(next, os[1..])
  }

  // ---- Invariant ----

  /** Due earlier, or due at the same tick and scheduled earlier. */
  predicate Before(a: Entry, b: Entry) {
    a.tick < b.tick || (a.tick == b.tick && a.stamp < b.stamp)
  }

  ghost predicate Sorted(q: seq<Entry>) {
    forall i, j :: 0 <= i < j < |q| ==> Before(q[i], q[j]) && q[i].id != q[j].id
  }

  ghost predicate Inv(s: State) {
    && Sorted(s.queue)
    && (forall e | e in s.queue :: e.id in s.known && s.simTick <= e.tick && e.stamp < s.clock)
    && (forall id | id in s.known :: 0 < id <= s.counter)
    && (forall i, j :: 0 <= i < j < |s.fired| ==> s.fired[i].tick <= s.fired[j].tick)
    && (forall e | e in s.fired :: e.tick <= s.simTick)
  }

  // ---- Reference ----

  /** When each pending event is due, and when that was decided. */
  datatype Due = Due(tick: nat, stamp: nat)

  ghost predicate Earlier(a: Due, b: Due) {
    a.tick < b.tick || (a.tick == b.tick && a.stamp < b.stamp)
  }

  /** The list holds exactly the pending events of p. */
  ghost predicate Holds(q: seq<Entry>, p: map<nat, Due>) {
    && (forall e | e in q :: e.id in p && p[e.id] == Due(e.tick, e.stamp))
    && (forall id: nat | id in p :: Entry(id, p[id].tick, p[id].stamp) in q)
  }

  /** One operation on the pending events, without any list: the next event is the earliest one. */
  ghost predicate Reference(s: State, p: map<nat, Due>, o: Op, t: State, p': map<nat, Due>) {
    match o
    case AllocateOp => p' == p && t.known == s.known + {s.counter + 1} && s.counter + 1 !in s.known
    case ScheduleOp(id, tick) =>
      var due := if tick < s.simTick then s.simTick else tick;
      t.known == s.known && t.simTick == s.simTick &&
      p' == if id in p && p[id].tick == due then p else p[id := Due(due, s.clock)]
    case DescheduleOp(id) => t.known == s.known && t.simTick == s.simTick && p' == p - {id}
    case DeallocateOp(id) => t.known == s.known - {id} && t.simTick == s.simTick && p' == p - {id}
    case NextOp =>
      if s.stopped || p == map[] then t == s && p' == p
      else
        exists id :: id in p && (forall other | other in p && other != id :: Earlier(p[id], p[other]))
          && p' == p - {id} && t.simTick == p[id].tick && t.known == s.known
          && t.fired == s.fired + [Entry(id, p[id].tick, p[id].stamp)]
    case StopOp => t == s.(stopped := true) && p' == p
  }

  // ---- Lists ----

  ghost predicate Ordered(q: seq<Entry>) {
    forall i, j :: 0 <= i < j < |q| ==> Before(q[i], q[j])
  }

  /** No event has two entries, not counting entry k. */
  ghost predicate UniqueBut(q: seq<Entry>, k: int) {
    forall i, j :: 0 <= i < j < |q| && i != k && j != k ==> q[i].id != q[j].id
  }

  ghost predicate AtBut(q: seq<Entry>, k: int, x: Entry) {
    exists i :: 0 <= i < |q| && i != k && q[i] == x
  }

  lemma DropAt(q: seq<Entry>, k: nat)
    requires k < |q| && Ordered(q) && UniqueBut(q, k)
    ensures Sorted(Drop(q, k))
    ensures forall x :: x in Drop(q, k) <==> AtBut(q, k, x)
  {
    var r := Drop(q, k);
    assert forall i :: 0 <= i < |r| ==> r[i] == q[if i < k then i else i + 1];
    hide Drop, Before;
    forall x | AtBut(q, k, x)
      ensures x in r
    {
      var i :| 0 <= i < |q| && i != k && q[i] == x;
      DropFrom(q, k, i);
    }
  }

  lemma DropFrom(q: seq<Entry>, k: nat, i: nat)
    requires k < |q| && i < |q| && i != k
    ensures q[i] in Drop(q, k)
  {
    assert Drop(q, k)[if i < k then i else i - 1] == q[i];
  }

  lemma RemoveEntries(q: seq<Entry>, id: nat)
    requires Sorted(q)
    ensures Sorted(Remove(q, id))
    ensures forall e :: e in Remove(q, id) <==> e in q && e.id != id
  {
    hide Drop, Before;
    var k := Find(q, id);
    if k < |q| {
      DropAt(q, k);
    }
  }

  lemma SpliceAt(q: seq<Entry>, at: nat, e: Entry, i: nat)
    requires at <= |q|
    ensures var r := Splice(q, at, e);
      && r[at] == e
      && (i < |r| && i != at ==> r[i] == q[if i < at then i else i - 1] && r[i] in q)
  {
  }

  lemma SpliceFrom(q: seq<Entry>, at: nat, e: Entry, x: Entry) returns (j: nat)
    requires at <= |q| && x in q
    ensures j < |q| + 1 && j != at && Splice(q, at, e)[j] == x
  {
    var i :| 0 <= i < |q| && q[i] == x;
    j := if i < at then i else i + 1;
    SpliceAt(q, at, e, j);
  }

  lemma InsertAt(q: seq<Entry>, e: Entry, at: nat)
    requires Sorted(q) && (forall x | x in q :: x.stamp < e.stamp) && at == Position(q, e.tick)
    ensures Ordered(Splice(q, at, e))
  {
    hide Position, Splice;
    var r := Splice(q, at, e);
    forall i, j | 0 <= i < j < |r|
      ensures Before(r[i], r[j])
    {
      SpliceAt(q, at, e, i);
      SpliceAt(q, at, e, j);
      if i == at {
        assert e.tick < q[at].tick;
      }
    }
  }

  /** The list with e and without its old entry */
  lemma InsertEntries(q: seq<Entry>, e: Entry)
    requires Sorted(q) && forall x | x in q :: x.stamp < e.stamp
    ensures Sorted(Insert(q, e))
    ensures forall x :: x in Insert(q, e) <==> x == e || (x in q && x.id != e.id)
  {
    hide Position, Find, Before, Splice, Drop, Sorted, Ordered, UniqueBut, AtBut;
    var at, was := Position(q, e.tick), Find(q, e.id);
    InsertAt(q, e, at);
    if was < |q| {
      var k := if was < at then was else was + 1;
      ShiftedMembers(q, at, k, was, e);
      DropAt(Splice(q, at, e), k);
    } else {
      NewMembers(q, at, e);
    }
  }

  lemma NewMembers(q: seq<Entry>, at: nat, e: Entry)
    requires Sorted(q) && at <= |q| && (forall i :: 0 <= i < |q| ==> q[i].id != e.id) && Ordered(Splice(q, at, e))
    ensures Sorted(Splice(q, at, e)) && forall x :: x in Splice(q, at, e) <==> x == e || x in q
  {
    hide Before, Splice;
    var r := Splice(q, at, e);
    SpliceAt(q, at, e, at);
    forall i, j | 0 <= i < j < |r|
      ensures r[i].id != r[j].id
    {
      SpliceAt(q, at, e, i);
      SpliceAt(q, at, e, j);
    }
    forall x | x in q
      ensures x in r
    {
      var j := SpliceFrom(q, at, e, x);
    }
    forall i | 0 <= i < |r| && i != at
      ensures r[i] in q
    {
      SpliceAt(q, at, e, i);
    }
  }

  lemma ShiftedMembers(q: seq<Entry>, at: nat, k: nat, was: nat, e: Entry)
    requires Sorted(q) && was < |q| && q[was].id == e.id && at <= |q|
    requires k == if was < at then was else was + 1
    ensures UniqueBut(Splice(q, at, e), k)
    ensures forall x :: AtBut(Splice(q, at, e), k, x) <==> x == e || (x in q && x.id != e.id)
  {
    hide Before, Splice;
    var r := Splice(q, at, e);
    SpliceAt(q, at, e, at);
    SpliceAt(q, at, e, k);
    forall i | 0 <= i < |r| && i != k && i != at
      ensures r[i] in q && r[i].id != e.id
    {
      SpliceAt(q, at, e, i);
    }
    forall i, j | 0 <= i < j < |r| && i != k && j != k
      ensures r[i].id != r[j].id
    {
      SpliceAt(q, at, e, i);
      SpliceAt(q, at, e, j);
    }
    forall x | x in q && x.id != e.id
      ensures AtBut(r, k, x)
    {
      var j := SpliceFrom(q, at, e, x);
    }
  }

  lemma {:induction false} FindHeld(q: seq<Entry>, p: map<nat, Due>, id: nat)
    requires Sorted(q) && Holds(q, p)
    ensures Find(q, id) < |q| <==> id in p
    ensures id in p ==> q[Find(q, id)] == Entry(id, p[id].tick, p[id].stamp)
  {
    var k := Find(q, id);
    if k < |q| {
      assert q[k] in q;
    }
    assert id in p ==> Entry(id, p[id].tick, p[id].stamp) in q;
  }

  // ---- Theorems ----

  /** An operation fails only when its caller names an unknown event, and it keeps the invariant. */
  lemma ApplyInv(s: State, o: Op)
    requires Inv(s)
    ensures Apply(s, o) == Panic(UnknownEvent) <==> (o.ScheduleOp? || o.DescheduleOp? || o.DeallocateOp?) && o.id !in s.known
    ensures Apply(s, o).Panic? ==> Apply(s, o) == Panic(UnknownEvent)
    ensures Apply(s, o).Ok? ==> Inv(Apply(s, o).value) && s.simTick <= Apply(s, o).value.simTick
  {
    hide Sorted, Insert, Remove, Find, Before;
    match o
    case ScheduleOp(id, tick) => InsertEntries(s.queue, Entry(id, if tick < s.simTick then s.simTick else tick, s.clock));
    case DescheduleOp(id) => RemoveEntries(s.queue, id);
    case DeallocateOp(id) => RemoveEntries(s.queue, id);
    case NextOp => NextInv(s);
    case _ =>
  }

  lemma NextInv(s: State)
    requires Inv(s)
    ensures DoNextEvent(s).Ok? && Inv(DoNextEvent(s).value) && s.simTick <= DoNextEvent(s).value.simTick
  {
    if s.queue != [] {
      assert s.queue[0] in s.queue;
      assert forall e | e in s.queue[1..] :: e in s.queue && s.queue[0].tick <= e.tick;
    }
  }

  lemma InsertHolds(q: seq<Entry>, p: map<nat, Due>, e: Entry)
    requires Sorted(q) && Holds(q, p) && forall x | x in q :: x.stamp < e.stamp
    ensures Holds(Insert(q, e), p[e.id := Due(e.tick, e.stamp)])
  {
    hide Sorted, Insert;
    InsertEntries(q, e);
  }

  lemma RemoveHolds(q: seq<Entry>, p: map<nat, Due>, id: nat)
    requires Sorted(q) && Holds(q, p)
    ensures Holds(Remove(q, id), p - {id})
  {
    hide Sorted, Remove;
    RemoveEntries(q, id);
  }

  lemma NextEarliest(q: seq<Entry>, p: map<nat, Due>)
    requires Sorted(q) && Holds(q, p) && q != []
    ensures q[0].id in p && p[q[0].id] == Due(q[0].tick, q[0].stamp)
    ensures forall other | other in p && other != q[0].id :: Earlier(p[q[0].id], p[other])
    ensures Holds(q[1..], p - {q[0].id})
  {
    assert q == [q[0]] + q[1..] && q[0] in q;
    forall other | other in p && other != q[0].id
      ensures Earlier(p[q[0].id], p[other])
    {
      assert Entry(other, p[other].tick, p[other].stamp) in q;
    }
  }

  lemma NothingPending(p: map<nat, Due>)
    requires Holds([], p)
    ensures p == map[]
  {
    assert forall id: nat :: id !in p;
  }

  /** The list does what the reference does. */
  lemma ApplyRefines(s: State, p: map<nat, Due>, o: Op) returns (p': map<nat, Due>)
    requires Inv(s) && Holds(s.queue, p) && Apply(s, o).Ok?
    ensures Holds(Apply(s, o).value.queue, p') && Reference(s, p, o, Apply(s, o).value, p')
  {
    hide Sorted, Insert, Remove, Find, Before, Holds, Earlier;
    p' := p;
    match o
    case ScheduleOp(id, tick) =>
      var due := if tick < s.simTick then s.simTick else tick;
      FindHeld(s.queue, p, id);
      if !(id in p && p[id].tick == due) {
        p' := p[id := Due(due, s.clock)];
        InsertHolds(s.queue, p, Entry(id, due, s.clock));
      }
    case DescheduleOp(id) =>
      RemoveHolds(s.queue, p, id);
      p' := p - {id};
    case DeallocateOp(id) =>
      RemoveHolds(s.queue, p, id);
      p' := p - {id};
    case NextOp =>
      if s.queue == [] {
        NothingPending(p);
      } else {
        NextEarliest(s.queue, p);
        if !s.stopped {
          p' := p - {s.queue[0].id};
        }
      }
    case _ =>
  }

  /** Any run of operations on known events: no unknown event is met, the time never goes back,
      handlers are called in the order of their ticks, and the list stays the pending events. */
  lemma {:induction false} RunInv(s: State, os: seq<Op>)
    requires Inv(s)
    ensures Run(s, os).Ok? ==> Inv(Run(s, os).value) && s.simTick <= Run(s, os).value.simTick
    ensures Run(s, os).Panic? ==> Run(s, os).why == UnknownEvent && exists i ::
      0 <= i < |os| && (os[i].ScheduleOp? || os[i].DescheduleOp? || os[i].DeallocateOp?)
      && Run(s, os[..i]).Ok? && os[i].id !in Run(s, os[..i]).value.known
    decreases |os|
  {
    hide Inv, Apply;
    if os != [] {
      ApplyInv(s, os[0]);
      if Apply(s, os[0]).Ok? {
        var next := Apply(s, os[0]).value;
        RunInv(next, os[1..]);
        if Run(s, os).Panic? {
          var i :| 0 <= i < |os| - 1 && (os[1..][i].ScheduleOp? || os[1..][i].DescheduleOp? || os[1..][i].DeallocateOp?)
            && Run(next, os[1..][..i]).Ok? && os[1..][i].id !in Run(next, os[1..][..i]).value.known;
          assert os[..i + 1][1..] == os[1..][..i];
          assert os[i + 1] == os[1..][i];
        }
      } else {
        assert os[..0] == [];
      }
    }
  }

  /** ps is what the reference does along a run. */
  ghost predicate Follows(s: State, os: seq<Op>, ps: seq<map<nat, Due>>)
    decreases |os|
  {
    && |ps| == |os| + 1
    && (os != [] ==>
          && Apply(s, os[0]).Ok?
          && Reference(s, ps[0], os[0], Apply(s, os[0]).value, ps[1])
          && Follows(Apply(s, os[0]).value, os[1..], ps[1..]))
  }

  /** A whole run of the engine is a run of the reference, and the list holds what the reference has
      pending at the end. */
  lemma {:induction false} RunRefines(s: State, p: map<nat, Due>, os: seq<Op>) returns (ps: seq<map<nat, Due>>)
    requires Inv(s) && Holds(s.queue, p) && Run(s, os).Ok?
    ensures Follows(s, os, ps) && ps[0] == p && Holds(Run(s, os).value.queue, ps[|os|])
    decreases |os|
  {
    hide Inv, Holds, Reference, Apply;
    if os == [] {
      ps := [p];
    } else {
      var p' := ApplyRefines(s, p, os[0]);
      ApplyInv(s, os[0]);
      var rest := RunRefines(Apply(s, os[0]).value, p', os[1..]);
      ps := [p] + rest;
      assert ps[1..] == rest;
    }
  }

  /** Nothing that is pending is forgotten: without further operations, the engine calls every
      pending handler, earliest first. */
  lemma {:induction false} DrainsAll(s: State)
    requires Inv(s) && !s.stopped
    ensures var r := Run(s, seq(|s.queue|, _ => NextOp));
      r.Ok? && r.value.queue == [] && r.value.fired == s.fired + s.queue
    decreases |s.queue|
  {
    hide Inv;
    if s.queue != [] {
      var os := seq(|s.queue|, _ => NextOp);
      NextInv(s);
      var t := DoNextEvent(s).value;
      assert os[0] == NextOp && os[1..] == seq(|t.queue|, _ => NextOp);
      NextFires(s);
      hide DoNextEvent;
      DrainsAll(t);
      assert s.fired + s.queue == (s.fired + [s.queue[0]]) + s.queue[1..];
    }
  }

  lemma NextFires(s: State)
    requires s.queue != [] && !s.stopped && DoNextEvent(s).Ok?
    ensures DoNextEvent(s).value == s.(simTick := s.queue[0].tick, queue := s.queue[1..], fired := s.fired + [s.queue[0]])
  {
  }
}

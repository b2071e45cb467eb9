/** How often a layer is queued.  With at most 25 queues, and refresh events that empty the queue they
    examine, every flagged layer has exactly one copy and "Corrupted layer check bitmap" cannot
    happen. */
module LayerCopies {
  import Arithmetic
  import opened Outcome
  import opened RefreshQueues

  function Count(s: seq<nat>, x: nat): nat {
    multiset(s)[x]
  }

  lemma CountNone(s: seq<nat>, x: nat)
    ensures Count(s, x) == 0 <==> x !in s
  {
  }

  lemma CountPush(s: seq<nat>, x: nat, y: nat)
    ensures Count(s + [x], y) == Count(s, y) + if x == y then 1 else 0
  {
  }

  lemma CountFront(s: seq<nat>, y: nat)
    requires s != []
    ensures Count(s, y) == Count(s[1..], y) + if s[0] == y then 1 else 0
  {
    assert s == [s[0]] + s[1..];
  }

  lemma {:induction false} CountRemoved(s: seq<nat>, x: nat, y: nat)
    ensures Count(RemoveFirst(s, x), y) == Count(s, y) - if x == y && x in s then 1 else 0
    decreases |s|
  {
    if s != [] {
      CountFront(s, y);
      if s[0] != x {
        CountRemoved(s[1..], x, y);
        CountFront(RemoveFirst(s, x), y);
        assert RemoveFirst(s, x)[1..] == RemoveFirst(s[1..], x);
      }
    }
  }

  /** How many copies of layer l queue i must hold, when those of the examined queue num are being
      taken. */
  function Due(q: Queues, num: nat, i: nat, l: nat): nat
    requires l < |q.inserted| == |q.queueOf| && num < |q.checked|
  {
    if q.inserted[l] && q.queueOf[l] == i && l !in q.checked[num] then 1 else 0
  }

  /** A flagged layer has one copy, at its recorded queue: in the examined queue num or in the
      refresh queue.  The other examined queues are empty. */
  ghost predicate Once(c: QueueConfig, q: Queues, num: nat) {
    && Shape(c, q) && num < c.queueCount
    && (forall i :: 0 <= i < c.queueCount && i != num ==> q.checked[i] == [])
    && (forall l :: 0 <= l < c.layerSlots ==> Count(q.checked[num], l) <= 1)
    && (forall l :: 0 <= l < c.layerSlots && l in q.checked[num] ==> q.inserted[l] && q.queueOf[l] == num)
    && (forall i, l :: 0 <= i < c.queueCount && 0 <= l < c.layerSlots ==> Count(q.refresh[i], l) == Due(q, num, i, l))
  }

  lemma InitOnce(c: QueueConfig, num: nat)
    requires ConfigOk(c) && num < c.queueCount
    ensures Once(c, Init(c), num)
  {
  }

  // ---------------------------------------------------------------------------------------
  // Scheduling

  lemma NextOf(calls: nat, n: nat)
    requires 0 < n
    ensures (calls + 1) % n == if calls % n + 1 == n then 0 else calls % n + 1
  {
    var q, r := calls / n, calls % n;
    assert calls + 1 == q * n + (r + 1);
    if r + 1 == n {
      Arithmetic.DivMod(calls + 1, n, q + 1, 0);
    } else {
      Arithmetic.DivMod(calls + 1, n, q, r + 1);
    }
  }

  /** The queue of the next event comes first in the cyclic order: with at most 25 queues no layer
      that is recorded there is moved. */
  lemma NextIsFirst(c: QueueConfig, q: Queues, to: nat)
    requires ConfigOk(c) && c.queueCount <= 25 && to < c.queueCount
    ensures Sub32(Normalized(c, q, to), Normalized(c, q, Target(c, q))) <= 24
  {
    NextOf(q.calls, c.queueCount);
    var current, num := q.calls % c.queueCount, Target(c, q);
    assert Normalized(c, q, num) == current + 1;
    hide Target;
    SmallDifference(Normalized(c, q, to), Normalized(c, q, num));
  }

  lemma SmallDifference(a: nat, b: nat)
    requires b <= a < UINT32
    ensures Sub32(a, b) == a - b
  {
  }

  lemma PushOnce(c: QueueConfig, q: Queues, num: nat, layer: nat, to: nat)
    requires ConfigOk(c) && Once(c, q, num) && layer < c.layerSlots && to < c.queueCount && !q.inserted[layer]
    ensures var r := PushBack(c, q, layer, to).(inserted := q.inserted[layer := true]);
      Once(c, r, num) && r.checked == q.checked
  {
    var r := PushBack(c, q, layer, to).(inserted := q.inserted[layer := true]);
    forall i, l | 0 <= i < c.queueCount && 0 <= l < c.layerSlots
      ensures Count(r.refresh[i], l) == Due(r, num, i, l)
    {
      CountPush(q.refresh[to], layer, l);
    }
  }

  lemma MoveOnce(c: QueueConfig, q: Queues, num: nat, layer: nat, to: nat)
    requires ConfigOk(c) && Once(c, q, num) && layer < c.layerSlots && to < c.queueCount
    requires q.inserted[layer] && layer !in q.checked[num]
    ensures var r := PushBack(c, Remove(c, q, layer), layer, to);
      Once(c, r, num) && r.checked == q.checked
  {
    var from := q.queueOf[layer];
    var p := Remove(c, q, layer);
    var r := PushBack(c, p, layer, to);
    forall i, l | 0 <= i < c.queueCount && 0 <= l < c.layerSlots
      ensures Count(r.refresh[i], l) == Due(r, num, i, l)
    {
      CountRemoved(q.refresh[from], layer, l);
      CountNone(q.refresh[from], layer);
      CountPush(p.refresh[to], layer, l);
    }
  }

  lemma OnceShape(c: QueueConfig, q: Queues, num: nat, layer: nat)
    requires Once(c, q, num) && layer < c.layerSlots
    ensures Shape(c, q) && |q.inserted| == |q.queueOf| == c.layerSlots && |q.checked| == |q.refresh| == c.queueCount
    ensures num < c.queueCount && q.queueOf[layer] < c.queueCount
    ensures layer in q.checked[num] ==> q.inserted[layer] && q.queueOf[layer] == num
  {
  }

  /** insertToQueue keeps one copy of every flagged layer. */
  lemma InsertOnce(c: QueueConfig, q: Queues, num: nat, at: nat, layer: nat)
    requires ConfigOk(c) && Once(c, q, num) && num == Target(c, q) && c.queueCount <= 25 && layer < c.layerSlots
    ensures var r := Insert(c, q, at, layer);
      Once(c, r, num) && r.checked == q.checked && r.calls == q.calls
  {
    hide Once, Shape, Normalized, Sub32, Due, PushBack, Remove;
    var to := at % c.queueCount;
    OnceShape(c, q, num, layer);
    if !q.inserted[layer] {
      PushOnce(c, q, num, layer, to);
    } else if Sub32(Normalized(c, q, to), Normalized(c, q, q.queueOf[layer])) > 24 {
      NextIsFirst(c, q, to);
      MoveOnce(c, q, num, layer, to);
    }
  }

  /** One copy of every flagged layer, when the next event is examining its queue and still has to
      take rest from it. */
  ghost predicate Draining(c: QueueConfig, q: Queues, num: nat, rest: seq<nat>) {
    ConfigOk(c) && Once(c, q, num) && num == Target(c, q) && q.checked[num] == rest
  }

  lemma InsertDraining(c: QueueConfig, q: Queues, num: nat, rest: seq<nat>, at: nat, layer: nat)
    requires Draining(c, q, num, rest) && c.queueCount <= 25 && layer < c.layerSlots
    ensures Shape(c, q) && Draining(c, Insert(c, q, at, layer), num, rest)
  {
    hide Insert, Shape;
    InsertOnce(c, q, num, at, layer);
  }

  lemma {:induction false} InsertGroupDraining(c: QueueConfig, q: Queues, num: nat, rest: seq<nat>, at: nat, block: nat,
                                               first: nat, k: nat)
    requires Draining(c, q, num, rest) && c.queueCount <= 25 && LAYERS_PER_BLOCK * (block + 1) <= c.layerSlots
    ensures ConfigOk(c) && Shape(c, q) && Draining(c, InsertGroup(c, q, at, block, first, k), num, rest)
    decreases c.groupSize - k
  {
    hide Shape, Insert, Once, Target;
    DrainingShape(c, q, num, rest);
    if k < c.groupSize && first + k < LAYERS_PER_BLOCK {
      var layer := block * LAYERS_PER_BLOCK + first + k;
      InsertDraining(c, q, num, rest, at, layer);
      InsertGroupDraining(c, Insert(c, q, at, layer), num, rest, at, block, first, k + 1);
    }
  }

  lemma DrainingShape(c: QueueConfig, q: Queues, num: nat, rest: seq<nat>)
    requires Draining(c, q, num, rest)
    ensures ConfigOk(c) && Shape(c, q) && num < c.queueCount == |q.checked| && q.checked[num] == rest
  {
  }

  lemma DrawsDraining(c: QueueConfig, q: Queues, num: nat, rest: seq<nat>, draws: nat)
    requires Draining(c, q, num, rest)
    ensures Shape(c, q) && Shape(c, q.(draws := draws)) && Draining(c, q.(draws := draws), num, rest)
  {
  }

  /** setRefreshPeriod keeps one copy of every flagged layer and does not touch the examined queue. */
  lemma SetPeriodDraining(c: QueueConfig, q: Queues, num: nat, rest: seq<nat>, eraseCount: nat, block: nat, layer: nat)
    requires Draining(c, q, num, rest) && c.queueCount <= 25
    requires LAYERS_PER_BLOCK * (block + 1) <= c.layerSlots && layer < LAYERS_PER_BLOCK
    ensures ConfigOk(c) && Shape(c, q) && Draining(c, SetPeriod(c, q, eraseCount, block, layer), num, rest)
  {
    hide Draining, Shape, GroupFirst, GroupLast, FirstExceeding, Insert, InsertGroup, ConfigOk;
    DrainingShape(c, q, num, rest);
    var current := q.calls % c.queueCount;
    if !c.grouped {
      var (i, draws) := FirstExceeding(c, q.draws, 1, eraseCount, layer);
      InsertDrawn(c, q, num, rest, draws, if i == c.queueCount then current else current + i,
                  block * LAYERS_PER_BLOCK + layer);
    } else {
      GroupPositive(c);
      if layer == GroupFirst(c, layer) {
        var (i, draws) := FirstExceeding(c, q.draws, 1, eraseCount, GroupLast(c, layer));
        InsertGroupDrawn(c, q, num, rest, draws,
                         if i == c.queueCount then current else (current + i) % c.queueCount, block, layer);
      }
    }
  }

  lemma InsertDrawn(c: QueueConfig, q: Queues, num: nat, rest: seq<nat>, draws: nat, at: nat, layer: nat)
    requires Draining(c, q, num, rest) && c.queueCount <= 25 && layer < c.layerSlots
    ensures ConfigOk(c) && Shape(c, q.(draws := draws))
    ensures Draining(c, Insert(c, q.(draws := draws), at, layer), num, rest)
  {
    hide Insert, Shape, Once;
    DrawsDraining(c, q, num, rest, draws);
    InsertDraining(c, q.(draws := draws), num, rest, at, layer);
  }

  lemma InsertGroupDrawn(c: QueueConfig, q: Queues, num: nat, rest: seq<nat>, draws: nat, at: nat, block: nat, first: nat)
    requires Draining(c, q, num, rest) && c.queueCount <= 25 && LAYERS_PER_BLOCK * (block + 1) <= c.layerSlots
    ensures ConfigOk(c) && Shape(c, q.(draws := draws))
    ensures Draining(c, InsertGroup(c, q.(draws := draws), at, block, first, 0), num, rest)
  {
    hide InsertGroup, Shape, Once;
    DrawsDraining(c, q, num, rest, draws);
    InsertGroupDraining(c, q.(draws := draws), num, rest, at, block, first, 0);
  }

  lemma GroupPositive(c: QueueConfig)
    requires ConfigOk(c) && c.grouped
    ensures 0 < c.groupSize
  {
  }

  // ---------------------------------------------------------------------------------------
  // Examining a queue

  /** The event takes over the layers that are due in its queue. */
  lemma SwapDraining(c: QueueConfig, q: Queues)
    requires ConfigOk(c) && Draining(c, q, Target(c, q), [])
    ensures var num := Target(c, q);
      Shape(c, q) && num < c.queueCount && Draining(c, Swap(c, q, num), num, q.refresh[num])
  {
    var num := Target(c, q);
    var r := Swap(c, q, num);
    forall l | 0 <= l < c.layerSlots
      ensures Count(r.checked[num], l) <= 1
      ensures l in r.checked[num] ==> r.inserted[l] && r.queueOf[l] == num
    {
      CountNone(q.refresh[num], l);
    }
    forall i, l | 0 <= i < c.queueCount && 0 <= l < c.layerSlots
      ensures Count(r.refresh[i], l) == Due(r, num, i, l)
    {
      CountNone(q.refresh[num], l);
      CountNone([], l);
    }
  }

  /** The first layer of the examined queue is flagged and recorded there: taking it never panics. */
  lemma PopDraining(c: QueueConfig, q: Queues, num: nat, rest: seq<nat>)
    requires Draining(c, q, num, rest) && rest != []
    ensures Shape(c, q) && num < c.queueCount && q.checked[num] != []
    ensures var p := Pop(c, q, num);
      p.Ok? && p.value.refreshNow && Draining(c, p.value.q, num, rest[1..])
  {
    var head := rest[0];
    assert head in rest;
    CountFront(rest, head);
    CountNone(rest[1..], head);
    var r := Pop(c, q, num).value.q;
    forall l | 0 <= l < c.layerSlots
      ensures Count(r.checked[num], l) <= 1
      ensures l in r.checked[num] <==> l in rest && l != head
    {
      CountFront(rest, l);
      CountNone(rest, l);
      CountNone(rest[1..], l);
    }
    forall i, l | 0 <= i < c.queueCount && 0 <= l < c.layerSlots
      ensures Count(r.refresh[i], l) == Due(r, num, i, l)
    {
    }
  }

  /** Once its queue is empty, the event may be counted, and another queue is next. */
  lemma CountDraining(c: QueueConfig, q: Queues, num: nat)
    requires Draining(c, q, num, [])
    ensures ConfigOk(c) && var r := q.(calls := q.calls + 1); Draining(c, r, Target(c, r), [])
  {
  }

  lemma {:induction false} RemovedLength(s: seq<nat>, x: nat)
    ensures |s| <= |RemoveFirst(s, x)| + 1
  {
    if s != [] {
      RemovedLength(s[1..], x);
    }
  }

  ghost predicate Distinct(s: seq<nat>, n: nat) {
    forall x :: x in s ==> x < n && Count(s, x) <= 1
  }

  lemma RemovedDistinct(s: seq<nat>, n: nat)
    requires Distinct(s, n + 1)
    ensures Distinct(RemoveFirst(s, n), n)
  {
    hide Count;
    var r := RemoveFirst(s, n);
    forall x | x in r
      ensures x < n && Count(r, x) <= 1
    {
      CountRemoved(s, n, x);
      CountNone(s, x);
      CountNone(r, x);
    }
  }

  /** A queue without repetitions is no longer than the layer bitmap. */
  lemma {:induction false} DistinctLength(s: seq<nat>, n: nat)
    requires Distinct(s, n)
    ensures |s| <= n
    decreases n
  {
    hide RemoveFirst, Count;
    if s != [] {
      assert s[0] in s;
      RemovedDistinct(s, n - 1);
      DistinctLength(RemoveFirst(s, n - 1), n - 1);
      RemovedLength(s, n - 1);
    }
  }

  lemma DrainingLength(c: QueueConfig, q: Queues, num: nat, rest: seq<nat>)
    requires Draining(c, q, num, rest)
    ensures |rest| <= c.layerSlots
  {
    DistinctLength(rest, c.layerSlots);
  }
}

/** The layer refresh scheduler: bookkeeping of page_mapping.cc in grouping modes 0 and 1. */
module RefreshQueues {
  import opened Outcome

  const LAYERS_PER_BLOCK: nat := 64
  const UINT32: nat := 0x1_0000_0000

  /** Draw n of the error model says whether retention for i periods at a given erase
      count and layer exceeds the tolerated bit error rate. */
  type ErrorDraws = (nat, nat, nat, nat) -> bool

  datatype QueueConfig = QueueConfig(
    queueCount: nat,
    grouped: bool,        // grouping mode 1, otherwise mode 0
    groupSize: nat,
    maxLayers: nat,       // layers refreshed per event
    layerSlots: nat,      // size of the layer bitmap
    exceeds: ErrorDraws
  )

  predicate ConfigOk(c: QueueConfig) {
    0 < c.queueCount < UINT32 / 2 && (c.grouped ==> 0 < c.groupSize)
  }

  datatype Queues = Queues(
    inserted: seq<bool>,        // insertedLayerCheck
    queueOf: seq<nat>,          // layerQueueNum
    refresh: seq<seq<nat>>,     // refreshQueues
    checked: seq<seq<nat>>,     // checkedQueues
    calls: nat,                 // stat.refreshCallCount
    draws: nat                  // values taken from the error model so far
  )

  ghost predicate Below(s: seq<nat>, n: nat) {
    forall k :: 0 <= k < |s| ==> s[k] < n
  }

  ghost predicate Shape(c: QueueConfig, q: Queues) {
    && |q.inserted| == |q.queueOf| == c.layerSlots
    && |q.refresh| == |q.checked| == c.queueCount
    && (forall l :: 0 <= l < |q.queueOf| ==> q.queueOf[l] < c.queueCount)
    && (forall i :: 0 <= i < |q.refresh| ==> Below(q.refresh[i], c.layerSlots))
    && (forall i :: 0 <= i < |q.checked| ==> Below(q.checked[i], c.layerSlots))
  }

  function Init(c: QueueConfig): Queues {
    Queues(seq(c.layerSlots, _ => false), seq(c.layerSlots, _ => 0),
           seq(c.queueCount, _ => []), seq(c.queueCount, _ => []), 0, 0)
  }

  /** std::deque::erase of the first element equal to x; nothing when there is none. */
  function RemoveFirst(s: seq<nat>, x: nat): (r: seq<nat>)
    ensures forall y :: y != x && y in s ==> y in r
  {
    if s == [] then []
    else if s[0] == x then s[1..]
    else [s[0]] + RemoveFirst(s[1..], x)
  }

  lemma {:induction false} RemoveFirstBelow(s: seq<nat>, x: nat, n: nat)
    requires Below(s, n)
    ensures Below(RemoveFirst(s, x), n)
  {
    if s != [] {
      assert Below(s[1..], n);
      RemoveFirstBelow(s[1..], x, n);
    }
  }

  lemma {:induction false} RemoveAbsent(s: seq<nat>, x: nat)
    requires x !in s
    ensures RemoveFirst(s, x) == s
  {
    if s != [] {
      RemoveAbsent(s[1..], x);
    }
  }

  lemma {:induction false} RemoveFirstAt(s: seq<nat>, x: nat, k: nat)
    requires k < |s| && s[k] == x && x !in s[..k]
    ensures RemoveFirst(s, x) == s[..k] + s[k + 1..]
  {
    if k > 0 {
      assert s[0] == s[..k][0] && s[1..][..k - 1] == s[..k][1..];
      RemoveFirstAt(s[1..], x, k - 1);
    }
  }

  /** 32-bit unsigned subtraction, as in the comparison of newQueue - oldQueue with 24. */
  function Sub32(a: nat, b: nat): nat {
    (a - b) % UINT32
  }

  /** A queue number placed after the current one in the cyclic order. */
  function Normalized(c: QueueConfig, q: Queues, num: nat): nat
    requires ConfigOk(c)
  {
    if num <= q.calls % c.queueCount then num + c.queueCount else num
  }

  function PushBack(c: QueueConfig, q: Queues, layer: nat, num: nat): (r: Queues)
    requires ConfigOk(c) && Shape(c, q) && layer < c.layerSlots && num < c.queueCount
    ensures Shape(c, r)
  {
    q.(refresh := q.refresh[num := q.refresh[num] + [layer]], queueOf := q.queueOf[layer := num])
  }

  /** insertToQueue */
  function Insert(c: QueueConfig, q: Queues, num: nat, layer: nat): (r: Queues)
    requires ConfigOk(c) && Shape(c, q) && layer < c.layerSlots
    ensures Shape(c, r) && r.calls == q.calls
  {
    var target := num % c.queueCount;
    if !q.inserted[layer] then
      PushBack(c, q, layer, target).(inserted := q.inserted[layer := true])
    else if Sub32(Normalized(c, q, target), Normalized(c, q, q.queueOf[layer])) > 24 then
      PushBack(c, Remove(c, q, layer), layer, target)
    else
      q
  }

  /** removeFromQueue: only the refresh queue is searched. */
  function Remove(c: QueueConfig, q: Queues, layer: nat): (r: Queues)
    requires Shape(c, q) && layer < c.layerSlots
    ensures Shape(c, r)
  {
    var at := q.queueOf[layer];
    RemoveFirstBelow(q.refresh[at], layer, c.layerSlots);
    q.(refresh := q.refresh[at := RemoveFirst(q.refresh[at], layer)])
  }

  /** The loop over i in setRefreshPeriod: the first period whose error rate is too high,
      or queueCount when there is none, together with the number of values drawn. */
  function FirstExceeding(c: QueueConfig, draws: nat, i: nat, eraseCount: nat, layer: nat): (r: (nat, nat))
    requires 0 < i
    ensures i <= r.0 && (i <= c.queueCount ==> r.0 <= c.queueCount)
    decreases c.queueCount - i
  {
    if i >= c.queueCount then (i, draws)
    else if c.exceeds(draws, i, eraseCount, layer) then (i, draws + 1)
    else FirstExceeding(c, draws + 1, i + 1, eraseCount, layer)
  }

  /** Insert the layers groupFirst + k, k < groupSize, that exist in the block. */
  function InsertGroup(c: QueueConfig, q: Queues, num: nat, block: nat, first: nat, k: nat): (r: Queues)
    requires ConfigOk(c) && Shape(c, q) && LAYERS_PER_BLOCK * (block + 1) <= c.layerSlots
    ensures Shape(c, r) && r.calls == q.calls
    decreases c.groupSize - k
  {
    if k < c.groupSize && first + k < LAYERS_PER_BLOCK then
      InsertGroup(c, Insert(c, q, num, block * LAYERS_PER_BLOCK + first + k), num, block, first, k + 1)
    else
      q
  }

  function GroupFirst(c: QueueConfig, layer: nat): nat
    requires 0 < c.groupSize
  {
    layer / c.groupSize * c.groupSize
  }

  function GroupLast(c: QueueConfig, first: nat): nat
    requires 0 < c.groupSize
  {
    if first + c.groupSize - 1 >= LAYERS_PER_BLOCK then LAYERS_PER_BLOCK - 1 else first + c.groupSize - 1
  }

  /** setRefreshPeriod, grouping modes 0 and 1 */
  function SetPeriod(c: QueueConfig, q: Queues, eraseCount: nat, block: nat, layer: nat): (r: Queues)
    requires ConfigOk(c) && Shape(c, q) && LAYERS_PER_BLOCK * (block + 1) <= c.layerSlots
    requires layer < LAYERS_PER_BLOCK
    ensures Shape(c, r) && r.calls == q.calls
  {
    var current := q.calls % c.queueCount;
    if !c.grouped then
      var (i, draws) := FirstExceeding(c, q.draws, 1, eraseCount, layer);
      Insert(c, q.(draws := draws), if i == c.queueCount then current else current + i,
             block * LAYERS_PER_BLOCK + layer)
    else
      var first := GroupFirst(c, layer);
      if layer != first then q
      else
        var (i, draws) := FirstExceeding(c, q.draws, 1, eraseCount, GroupLast(c, first));
        InsertGroup(c, q.(draws := draws),
                    if i == c.queueCount then current else (current + i) % c.queueCount, block, first, 0)
  }

  /** The queue examined by the next refresh event. */
  function Target(c: QueueConfig, q: Queues): (t: nat)
    requires ConfigOk(c)
    ensures t < c.queueCount
  {
    (q.calls + 1) % c.queueCount
  }

  /** refresh_event: exchange the two queues of the target index. */
  function Swap(c: QueueConfig, q: Queues, num: nat): (r: Queues)
    requires Shape(c, q) && num < c.queueCount
    ensures Shape(c, r) && r.calls == q.calls
  {
    q.(checked := q.checked[num := q.refresh[num]], refresh := q.refresh[num := q.checked[num]])
  }

  datatype Popped = Popped(q: Queues, layer: nat, refreshNow: bool)

  /** One iteration of the drain loop of refreshPage up to the look-up of the block. */
  function Pop(c: QueueConfig, q: Queues, num: nat): (r: Result<Popped>)
    requires Shape(c, q) && num < c.queueCount && q.checked[num] != []
    ensures r.Ok? ==> Shape(c, r.value.q) && r.value.q.calls == q.calls && r.value.layer < c.layerSlots
  {
    var layer := q.checked[num][0];
    var rest := q.(checked := q.checked[num := q.checked[num][1..]]);
    if num != q.queueOf[layer] then Ok(Popped(rest, layer, false))
    else if !q.inserted[layer] then Panic(LayerBitmapCorrupted)
    else Ok(Popped(rest.(inserted := q.inserted[layer := false]), layer, true))
  }

  // ---------------------------------------------------------------------------------------
  // No flagged layer is lost

  /** A layer whose bit is set has a copy in one of the two queues of its recorded index. */
  ghost predicate NoneLost(c: QueueConfig, q: Queues)
    requires Shape(c, q)
  {
    forall l :: 0 <= l < c.layerSlots && q.inserted[l] ==>
      l in q.refresh[q.queueOf[l]] || l in q.checked[q.queueOf[l]]
  }

  lemma InitNoneLost(c: QueueConfig)
    requires ConfigOk(c)
    ensures Shape(c, Init(c)) && NoneLost(c, Init(c))
  {
  }

  lemma PushBackNoneLost(c: QueueConfig, q: Queues, layer: nat, num: nat)
    requires ConfigOk(c) && Shape(c, q) && layer < c.layerSlots && num < c.queueCount
    requires forall l :: 0 <= l < c.layerSlots && l != layer && q.inserted[l] ==>
      l in q.refresh[q.queueOf[l]] || l in q.checked[q.queueOf[l]]
    ensures NoneLost(c, PushBack(c, q, layer, num))
    ensures layer in PushBack(c, q, layer, num).refresh[num]
  {
    var r := PushBack(c, q, layer, num);
    assert r.refresh[num][|q.refresh[num]|] == layer;
    forall l | 0 <= l < c.layerSlots && l != layer && r.inserted[l]
      ensures l in r.refresh[r.queueOf[l]] || l in r.checked[r.queueOf[l]]
    {
    }
  }

  /** Exactly the given layer is flagged. */
  lemma InsertFlags(c: QueueConfig, q: Queues, num: nat, layer: nat)
    requires ConfigOk(c) && Shape(c, q) && layer < c.layerSlots
    ensures |q.inserted| == c.layerSlots && Insert(c, q, num, layer).inserted == q.inserted[layer := true]
  {
  }

  lemma InsertNoneLost(c: QueueConfig, q: Queues, num: nat, layer: nat)
    requires ConfigOk(c) && Shape(c, q) && layer < c.layerSlots && NoneLost(c, q)
    ensures NoneLost(c, Insert(c, q, num, layer))
  {
    var target := num % c.queueCount;
    if !q.inserted[layer] {
      PushBackNoneLost(c, q, layer, target);
    } else if Sub32(Normalized(c, q, target), Normalized(c, q, q.queueOf[layer])) > 24 {
      PushBackNoneLost(c, Remove(c, q, layer), layer, target);
    }
  }

  lemma {:induction false} InsertGroupNoneLost(c: QueueConfig, q: Queues, num: nat, block: nat, first: nat, k: nat)
    requires ConfigOk(c) && Shape(c, q) && LAYERS_PER_BLOCK * (block + 1) <= c.layerSlots && NoneLost(c, q)
    ensures NoneLost(c, InsertGroup(c, q, num, block, first, k))
    decreases c.groupSize - k
  {
    hide NoneLost, Shape, Insert;
    if k < c.groupSize && first + k < LAYERS_PER_BLOCK {
      var layer := block * LAYERS_PER_BLOCK + first + k;
      InsertNoneLost(c, q, num, layer);
      InsertGroupNoneLost(c, Insert(c, q, num, layer), num, block, first, k + 1);
    }
  }

  lemma FlagCount(c: QueueConfig, q: Queues)
    requires Shape(c, q)
    ensures |q.inserted| == c.layerSlots
  {
  }

  /** Which layers a group insertion flags: those of the group that the block has. */
  lemma {:induction false} InsertGroupFlags(c: QueueConfig, q: Queues, num: nat, block: nat, first: nat, k: nat, l: nat)
    requires ConfigOk(c) && Shape(c, q) && LAYERS_PER_BLOCK * (block + 1) <= c.layerSlots && l < c.layerSlots
    ensures InsertGroup(c, q, num, block, first, k).inserted[l] ==
      (q.inserted[l] || block * LAYERS_PER_BLOCK + first + k <= l < block * LAYERS_PER_BLOCK
         + (if first + c.groupSize < LAYERS_PER_BLOCK then first + c.groupSize else LAYERS_PER_BLOCK))
    decreases c.groupSize - k
  {
    hide Shape, Insert;
    FlagCount(c, q);
    if k < c.groupSize && first + k < LAYERS_PER_BLOCK {
      var layer := block * LAYERS_PER_BLOCK + first + k;
      InsertFlags(c, q, num, layer);
      InsertGroupFlags(c, Insert(c, q, num, layer), num, block, first, k + 1, l);
    }
  }

  lemma QueuesPositive(c: QueueConfig)
    requires ConfigOk(c)
    ensures 0 < c.queueCount && (c.grouped ==> 0 < c.groupSize)
  {
  }

  /** setRefreshPeriod loses no layer. */
  lemma SetPeriodNoneLost(c: QueueConfig, q: Queues, eraseCount: nat, block: nat, layer: nat)
    requires ConfigOk(c) && Shape(c, q) && LAYERS_PER_BLOCK * (block + 1) <= c.layerSlots
    requires layer < LAYERS_PER_BLOCK && NoneLost(c, q)
    ensures NoneLost(c, SetPeriod(c, q, eraseCount, block, layer))
  {
    hide NoneLost, Shape, GroupFirst, GroupLast, FirstExceeding, Insert, InsertGroup, ConfigOk;
    QueuesPositive(c);
    var current := q.calls % c.queueCount;
    if !c.grouped {
      var (i, draws) := FirstExceeding(c, q.draws, 1, eraseCount, layer);
      DrawsNoneLost(c, q, draws);
      InsertNoneLost(c, q.(draws := draws), if i == c.queueCount then current else current + i,
                     block * LAYERS_PER_BLOCK + layer);
    } else if layer == GroupFirst(c, layer) {
      var (i, draws) := FirstExceeding(c, q.draws, 1, eraseCount, GroupLast(c, layer));
      DrawsNoneLost(c, q, draws);
      InsertGroupNoneLost(c, q.(draws := draws),
                          if i == c.queueCount then current else (current + i) % c.queueCount,
                          block, layer, 0);
    }
  }

  lemma DrawsShape(c: QueueConfig, q: Queues, draws: nat)
    requires Shape(c, q)
    ensures Shape(c, q.(draws := draws)) && |q.inserted| == c.layerSlots
  {
  }

  lemma DrawsNoneLost(c: QueueConfig, q: Queues, draws: nat)
    requires Shape(c, q) && NoneLost(c, q)
    ensures Shape(c, q.(draws := draws)) && NoneLost(c, q.(draws := draws))
  {
  }

  lemma InsertDrawnFlags(c: QueueConfig, q: Queues, draws: nat, num: nat, layer: nat)
    requires ConfigOk(c) && Shape(c, q) && layer < c.layerSlots
    ensures Shape(c, q.(draws := draws)) && |q.inserted| == c.layerSlots
    ensures Insert(c, q.(draws := draws), num, layer).inserted == q.inserted[layer := true]
  {
    hide Shape, Insert;
    DrawsShape(c, q, draws);
    InsertFlags(c, q.(draws := draws), num, layer);
  }

  lemma GroupDrawnFlags(c: QueueConfig, q: Queues, draws: nat, num: nat, block: nat, first: nat, l: nat)
    requires ConfigOk(c) && Shape(c, q) && LAYERS_PER_BLOCK * (block + 1) <= c.layerSlots && l < c.layerSlots
    ensures Shape(c, q.(draws := draws)) && |q.inserted| == c.layerSlots
    ensures InsertGroup(c, q.(draws := draws), num, block, first, 0).inserted[l] ==
      (q.inserted[l] || block * LAYERS_PER_BLOCK + first <= l < block * LAYERS_PER_BLOCK
         + (if first + c.groupSize < LAYERS_PER_BLOCK then first + c.groupSize else LAYERS_PER_BLOCK))
  {
    hide Shape, InsertGroup;
    DrawsShape(c, q, draws);
    InsertGroupFlags(c, q.(draws := draws), num, block, first, 0, l);
  }

  /** The layers flagged by setRefreshPeriod: the given one in mode 0; in mode 1 the whole group
      for its first layer, and nothing for the others. */
  lemma SetPeriodFlags(c: QueueConfig, q: Queues, eraseCount: nat, block: nat, layer: nat, l: nat)
    requires ConfigOk(c) && Shape(c, q) && LAYERS_PER_BLOCK * (block + 1) <= c.layerSlots
    requires layer < LAYERS_PER_BLOCK && l < LAYERS_PER_BLOCK
    ensures var id := block * LAYERS_PER_BLOCK + l;
      SetPeriod(c, q, eraseCount, block, layer).inserted[id] ==
        (q.inserted[id] || if c.grouped then layer == GroupFirst(c, layer) && layer <= l < layer + c.groupSize
                           else l == layer)
  {
    hide Shape, Insert, InsertGroup, FirstExceeding, GroupFirst, GroupLast;
    var current := q.calls % c.queueCount;
    var id := block * LAYERS_PER_BLOCK + l;
    if !c.grouped {
      var (i, draws) := FirstExceeding(c, q.draws, 1, eraseCount, layer);
      InsertDrawnFlags(c, q, draws, if i == c.queueCount then current else current + i,
                       block * LAYERS_PER_BLOCK + layer);
    } else {
      var first := GroupFirst(c, layer);
      if layer == first {
        var (i, draws) := FirstExceeding(c, q.draws, 1, eraseCount, GroupLast(c, first));
        GroupDrawnFlags(c, q, draws, if i == c.queueCount then current else (current + i) % c.queueCount,
                        block, first, id);
      }
    }
  }

  lemma SwapNoneLost(c: QueueConfig, q: Queues, num: nat)
    requires Shape(c, q) && num < c.queueCount && NoneLost(c, q)
    ensures NoneLost(c, Swap(c, q, num))
  {
  }

  /** Taking a layer from the examined queue loses no layer; the loop stops with a panic
      exactly when the popped copy is recorded at this index but its bit is clear. */
  lemma PopNoneLost(c: QueueConfig, q: Queues, num: nat)
    requires Shape(c, q) && num < c.queueCount && q.checked[num] != [] && NoneLost(c, q)
    ensures Pop(c, q, num).Panic? <==>
      q.queueOf[q.checked[num][0]] == num && !q.inserted[q.checked[num][0]]
    ensures Pop(c, q, num).Ok? ==> NoneLost(c, Pop(c, q, num).value.q)
  {
    var head, rest := q.checked[num][0], q.checked[num][1..];
    assert q.checked[num] == [head] + rest;
    assert forall l :: l in q.checked[num] && l != head ==> l in rest;
    if Pop(c, q, num).Ok? {
      var r := Pop(c, q, num).value.q;
      forall l | 0 <= l < c.layerSlots && r.inserted[l]
        ensures l in r.refresh[r.queueOf[l]] || l in r.checked[r.queueOf[l]]
      {
        assert q.inserted[l];
      }
    }
  }
}

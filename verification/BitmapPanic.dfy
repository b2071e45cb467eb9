/** A run from the constructor that ends with "Corrupted layer check bitmap".  Refresh events that
    do not empty their queue leave copies of a layer behind; the layer is then moved to another
    queue, because the distance of the two queue numbers wraps around in 32 bits, and a stale copy
    is later found recorded at its queue with its bit clear. */
module BitmapPanic {
  import opened Outcome
  import opened FlashBlock
  import opened FtlModel
  import opened FtlInvariant
  import opened FtlOperations
  import opened FtlRuns
  import opened FtlWritePoints
  import opened SoloWrites
  import Q = RefreshQueues

  /** Two queues, 63 layers per event, and an error rate that is always too high. */
  const PARTIAL: Q.QueueConfig := Q.QueueConfig(2, false, 1, 63, 64, (_, _, _, _) => true)

  /** One block of 512 one-unit pages, which is the only write point; no collections. */
  const DRAINING: Config := Config(1, 512, 1, 1, false, 0, 0.0, 1, 10, PARTIAL)

  // ---------------------------------------------------------------------------------------
  // Scheduling

  function Scheduled(q: Q.Queues, eraseCount: nat, layer: nat): (r: Q.Queues)
    requires Q.Shape(PARTIAL, q) && layer < Q.LAYERS_PER_BLOCK
    ensures Q.Shape(PARTIAL, r)
  {
    Q.SetPeriod(PARTIAL, q, eraseCount, 0, layer)
  }

  /** The queue that a write schedules its layer for. */
  function Next(q: Q.Queues): nat {
    (q.calls + 1) % 2
  }

  lemma ScheduledFresh(q: Q.Queues, e: nat, layer: nat)
    requires Q.Shape(PARTIAL, q) && layer < Q.LAYERS_PER_BLOCK && !q.inserted[layer]
    ensures var t := Next(q);
      Scheduled(q, e, layer) == q.(draws := q.draws + 1, inserted := q.inserted[layer := true],
                                   queueOf := q.queueOf[layer := t], refresh := q.refresh[t := q.refresh[t] + [layer]])
  {
  }

  /** 32-bit subtraction moves a layer from the current queue to the next one, which is earlier in
      the cyclic order. */
  lemma ScheduledMoved(q: Q.Queues, e: nat, layer: nat)
    requires Q.Shape(PARTIAL, q) && layer < Q.LAYERS_PER_BLOCK && q.inserted[layer]
    requires q.queueOf[layer] == q.calls % 2 && layer !in q.refresh[q.calls % 2]
    ensures var t := Next(q);
      Scheduled(q, e, layer) == q.(draws := q.draws + 1, queueOf := q.queueOf[layer := t],
                                   refresh := q.refresh[t := q.refresh[t] + [layer]])
  {
    Q.RemoveAbsent(q.refresh[q.calls % 2], layer);
    assert q.refresh[q.calls % 2 := q.refresh[q.calls % 2]] == q.refresh;
  }

  /** The layers lo, lo + 1, ..., hi - 1. */
  function Layers(lo: nat, hi: nat): seq<nat>
    requires lo <= hi
  {
    seq(hi - lo, i requires 0 <= i => lo + i)
  }

  /** Every flagged layer is recorded at the current queue, but is not in its refresh queue. */
  ghost predicate Movable(q: Q.Queues) {
    && Q.Shape(PARTIAL, q)
    && forall l :: 0 <= l < 64 && q.inserted[l] ==> q.queueOf[l] == q.calls % 2 && l !in q.refresh[q.calls % 2]
  }

  /** From q0 to q the first k layers were scheduled in order. */
  ghost predicate Phase(q0: Q.Queues, q: Q.Queues, k: nat) {
    && Q.Shape(PARTIAL, q0) && Q.Shape(PARTIAL, q) && k <= 64
    && q.calls == q0.calls && q.checked == q0.checked
    && q.refresh == q0.refresh[Next(q0) := q0.refresh[Next(q0)] + Layers(0, k)]
    && forall l :: 0 <= l < 64 ==>
      q.inserted[l] == (l < k || q0.inserted[l]) && q.queueOf[l] == if l < k then Next(q0) else q0.queueOf[l]
  }

  lemma PhaseStep(q0: Q.Queues, q: Q.Queues, e: nat, k: nat)
    requires Movable(q0) && Phase(q0, q, k) && k < 64
    ensures Phase(q0, Scheduled(q, e, k), k + 1)
  {
    hide Scheduled;
    var t := Next(q0);
    assert q0.refresh[t] + Layers(0, k) + [k] == q0.refresh[t] + Layers(0, k + 1) by { hide Phase, Movable; }
    if q.inserted[k] {
      ScheduledMoved(q, e, k);
    } else {
      ScheduledFresh(q, e, k);
    }
  }

  // ---------------------------------------------------------------------------------------
  // 64 writes and a trim

  lemma ConfigFits()
    ensures ConfigOk(DRAINING)
  {
  }

  /** Block 0 is the write point and its first n pages are programmed. */
  ghost predicate Ready(s: Ftl, n: nat) {
    OnePoint(DRAINING, s, n)
  }

  lemma ReadyShape(s: Ftl, n: nat)
    requires Ready(s, n)
    ensures ConfigOk(DRAINING) && Shape(DRAINING, s) && Q.Shape(PARTIAL, s.queues) && !GcNeeded(DRAINING, s)
  {
  }

  /** After k writes from s0, whose programmed pages fill whole layers. */
  ghost predicate Filling(s0: Ftl, s: Ftl, n: nat, k: nat) {
    && Ready(s, n + k) && Phase(s0.queues, s.queues, k)
    && (0 < k ==> s.table == map[0 := [Loc(0, n + k - 1)]])
  }

  lemma FillingNext(s0: Ftl, s: Ftl, t: Ftl, n: nat, k: nat)
    requires ConfigOk(DRAINING) && Shape(DRAINING, s) && 0 in s.blocks && Q.Shape(PARTIAL, s.queues)
    requires Filling(s0, s, n, k) && Movable(s0.queues) && n % 64 == 0 && k < 64
    requires Overwritten(DRAINING, s, t, 0, n + k)
    ensures Filling(s0, t, n, k + 1)
  {
    hide Solo, Shape, ConfigOk, Phase, Movable, Q.SetPeriod;
    assert (n + k) % 64 == k;
    PhaseStep(s0.queues, s.queues, s.blocks[0].eraseCount, k);
  }

  lemma FillOnce(s0: Ftl, s: Ftl, n: nat, k: nat) returns (t: Ftl)
    requires Filling(s0, s, n, k) && Movable(s0.queues) && n % 64 == 0 && k < 64 && n + 64 <= 512
    ensures ConfigOk(DRAINING) && Shape(DRAINING, s) && Leads(DRAINING, s, [Write0([])], t) && Filling(s0, t, n, k + 1)
  {
    hide Shape, ConfigOk, Phase, Movable, Solo, Overwritten, Leads, Step, GcNeeded;
    ReadyShape(s, n + k);
    QuietWrite(DRAINING, s, 0, n + k);
    t := Step(DRAINING, s, Write0([])).value;
    FillingNext(s0, s, t, n, k);
  }

  lemma {:induction false} WritesLead(s0: Ftl, n: nat, k: nat) returns (t: Ftl)
    requires Ready(s0, n) && Movable(s0.queues) && n % 64 == 0 && n + 64 <= 512 && k <= 64
    ensures ConfigOk(DRAINING) && Shape(DRAINING, s0)
    ensures Leads(DRAINING, s0, Writes(k), t) && Filling(s0, t, n, k)
  {
    hide Shape, ConfigOk, Phase, Movable, Solo, Leads;
    ReadyShape(s0, n);
    if k == 0 {
      t := s0;
      LeadsNone(DRAINING, s0);
      NothingScheduled(s0.queues);
    } else {
      var r := WritesLead(s0, n, k - 1);
      t := FillOnce(s0, r, n, k - 1);
      LeadsJoin(DRAINING, s0, Writes(k - 1), r, [Write0([])], t);
    }
  }

  lemma NothingScheduled(q: Q.Queues)
    requires Q.Shape(PARTIAL, q)
    ensures Phase(q, q, 0)
  {
    assert q.refresh[Next(q)] + Layers(0, 0) == q.refresh[Next(q)];
  }

  /** After the trim no slot is valid. */
  ghost predicate Bare(s: Ftl, n: nat) {
    Ready(s, n) && Dead(s, 0)
  }

  lemma BareAfter(s: Ftl, n: nat)
    requires Ready(s, n) && s.table == map[]
    ensures Bare(s, n)
  {
    hide TableSound, FreeOk, Shape, ConfigOk;
  }

  lemma TrimOne(s: Ftl, n: nat) returns (t: Ftl)
    requires Ready(s, n) && 0 < n && s.table == map[0 := [Loc(0, n - 1)]] && n <= 512
    ensures ConfigOk(DRAINING) && Shape(DRAINING, s) && Leads(DRAINING, s, [HostTrim(0)], t)
    ensures Bare(t, n) && t.queues == s.queues
  {
    hide FreeOk, TableSound, SlotsMapped, ConfigOk, Shape, Dead;
    ReadyShape(s, n);
    TrimCore(DRAINING, s, 0);
    var u := KillUnit(DRAINING, s, 0, n - 1, 0);
    assert TrimUnits(DRAINING, u, 0, 1) == Ok(u);
    assert TrimUnits(DRAINING, s, 0, 0) == Ok(u);
    t := u.(table := u.table - {0});
    assert t.table == map[];
    LeadsOne(DRAINING, s, HostTrim(0), t);
    BareAfter(t, n);
  }

  // ---------------------------------------------------------------------------------------
  // Refresh events without valid slots

  /** From q to r, the layers lo to 62 were taken from the examined queue num and cleared. */
  ghost predicate Taken(q: Q.Queues, r: Q.Queues, num: nat, lo: nat) {
    && Q.Shape(PARTIAL, q) && Q.Shape(PARTIAL, r) && num < 2
    && r.calls == q.calls && r.refresh == q.refresh && r.queueOf == q.queueOf
    && r.checked == q.checked[num := [63]]
    && forall l :: 0 <= l < 64 ==> r.inserted[l] == (q.inserted[l] && !(lo <= l < 63))
  }

  /** The examined queue num holds the layers from lo on, all of them recorded there and flagged. */
  ghost predicate DueFrom(q: Q.Queues, num: nat, lo: nat) {
    && Q.Shape(PARTIAL, q) && num < 2 && lo <= 63 && q.checked[num] == Layers(lo, 64)
    && forall l :: lo <= l < 63 ==> q.queueOf[l] == num && q.inserted[l]
  }

  lemma PopNext(q: Q.Queues, num: nat, lo: nat)
    requires DueFrom(q, num, lo) && lo < 63
    ensures q.checked[num] != []
    ensures var p := Q.Pop(PARTIAL, q, num);
      && p.Ok? && p.value.layer == lo && p.value.refreshNow && DueFrom(p.value.q, num, lo + 1)
      && forall r :: Taken(p.value.q, r, num, lo + 1) ==> Taken(q, r, num, lo)
  {
    assert Layers(lo, 64)[1..] == Layers(lo + 1, 64);
  }

  lemma LastTaken(q: Q.Queues, num: nat)
    requires DueFrom(q, num, 63)
    ensures Taken(q, q, num, 63)
  {
    assert q.checked[num] == [63];
  }

  lemma SameDead(s: Ftl, t: Ftl)
    requires Dead(s, 0) && t.blocks == s.blocks
    ensures Dead(t, 0)
  {
    assert forall p: nat, w: nat :: Live(t, 0, p, w) == Live(s, 0, p, w);
  }

  /** Taking a layer that is due only changes the queues when no slot is valid. */
  lemma RefreshBare(s: Ftl, num: nat, lo: nat)
    requires ConfigOk(DRAINING) && Shape(DRAINING, s) && s.blocks.Keys == {0} && Dead(s, 0)
    requires DueFrom(s.queues, num, lo) && lo < 63 && s.queues.checked[num] != []
    ensures Q.Pop(PARTIAL, s.queues, num).Ok?
    ensures RefreshLayer(DRAINING, s, num) == Ok(s.(queues := Q.Pop(PARTIAL, s.queues, num).value.q))
  {
    hide ConfigOk, Q.Pop, CopyPages, Live;
    PopNext(s.queues, num, lo);
    var s1 := s.(queues := Q.Pop(PARTIAL, s.queues, num).value.q);
    SameDead(s, s1);
    DeadCopied(DRAINING, s1, 0, lo, Q.LAYERS_PER_BLOCK, true);
  }

  /** Draining a queue of due layers stops before layer 63. */
  lemma {:induction false} DrainBare(s: Ftl, num: nat, lo: nat) returns (q: Q.Queues)
    requires ConfigOk(DRAINING) && Shape(DRAINING, s) && s.blocks.Keys == {0} && Dead(s, 0)
    requires DueFrom(s.queues, num, lo)
    ensures Drain(DRAINING, s, num, 63 - lo) == Ok(s.(queues := q)) && Taken(s.queues, q, num, lo)
    decreases 63 - lo
  {
    hide ConfigOk, Q.Pop, Dead, Taken, RefreshLayer;
    if lo == 63 {
      q := s.queues;
      LastTaken(q, num);
    } else {
      PopNext(s.queues, num, lo);
      hide DueFrom;
      RefreshBare(s, num, lo);
      var s1 := RefreshLayer(DRAINING, s, num).value;
      SameDead(s, s1);
      q := DrainBare(s1, num, lo + 1);
    }
  }

  lemma NoCollection(s: Ftl)
    requires ConfigOk(DRAINING) && Shape(DRAINING, s)
    ensures !GcNeeded(DRAINING, s) && CollectIfNeeded(DRAINING, s, []) == Ok(s)
  {
    hide Shape, ConfigOk;
  }

  /** A refresh event that needs no collection is its drain between the exchange of the two queues
      and the count of the event. */
  lemma RefreshQuiet(s: Ftl)
    requires ConfigOk(DRAINING) && Shape(DRAINING, s)
    ensures RefreshVictimsOk(DRAINING, s, [], [])
    ensures var num := Next(s.queues);
      var r := Drain(DRAINING, SwapQueues(DRAINING, s, num), num, 63);
      Refresh(DRAINING, s, [], []) == if r.Ok? then Ok(CountCall(DRAINING, r.value)) else Panic(r.why)
  {
    hide Shape, ConfigOk, CollectIfNeeded, Drain, SwapQueues, CountCall, GcNeeded;
    var num := Next(s.queues);
    var s1 := SwapQueues(DRAINING, s, num);
    NoCollection(s1);
    var r := Drain(DRAINING, s1, num, 63);
    if r.Ok? {
      NoCollection(r.value);
    }
  }

  lemma BareQueues(s: Ftl, t: Ftl, n: nat)
    requires Bare(s, n) && t == s.(queues := t.queues) && Q.Shape(PARTIAL, t.queues)
    ensures Bare(t, n)
  {
    ReadyShape(s, n);
    SameDead(s, t);
    FrameCore(DRAINING, s, t, {});
    hide Core, Dead;
  }

  // ---------------------------------------------------------------------------------------
  // Rounds

  /** The queues, the number of refresh events, and what is recorded for layer 63, which is the only
      layer that may be flagged. */
  ghost predicate QueuesAt(q: Q.Queues, r: seq<seq<nat>>, k: seq<seq<nat>>, calls: nat, bit: bool, at: nat) {
    && Q.Shape(PARTIAL, q) && q.refresh == r && q.checked == k && q.calls == calls
    && (forall l :: 0 <= l < 63 ==> !q.inserted[l]) && q.inserted[63] == bit && q.queueOf[63] == at
  }

  /** The queues after a round that started with q0. */
  ghost predicate RoundDone(q0: Q.Queues, q: Q.Queues)
    requires Q.Shape(PARTIAL, q0)
  {
    QueuesAt(q, q0.refresh[Next(q0) := q0.checked[Next(q0)]], q0.checked[Next(q0) := [63]], q0.calls + 1, true, Next(q0))
  }

  lemma DueAfterPhase(q0: Q.Queues, q: Q.Queues)
    requires Phase(q0, q, 64) && q0.refresh[Next(q0)] == []
    ensures DueFrom(Q.Swap(PARTIAL, q, Next(q)), Next(q), 0)
  {
    assert [] + Layers(0, 64) == Layers(0, 64);
  }

  lemma AfterRound(q0: Q.Queues, q: Q.Queues, d: Q.Queues)
    requires Phase(q0, q, 64) && q0.refresh[Next(q0)] == []
    requires Taken(Q.Swap(PARTIAL, q, Next(q)), d, Next(q), 0)
    ensures RoundDone(q0, d.(calls := d.calls + 1)) && Q.Shape(PARTIAL, d.(calls := d.calls + 1))
  {
  }

  lemma RefreshFull(q0: Q.Queues, s: Ftl, n: nat) returns (t: Ftl)
    requires Bare(s, n) && Phase(q0, s.queues, 64) && q0.refresh[Next(q0)] == []
    ensures ConfigOk(DRAINING) && Shape(DRAINING, s) && Leads(DRAINING, s, [RefreshEvent([], [])], t) && Bare(t, n)
    ensures Q.Shape(PARTIAL, q0) && RoundDone(q0, t.queues)
  {
    hide Shape, ConfigOk, DueFrom, Solo, Dead, Taken, Drain, Refresh, RefreshVictimsOk, RoundDone;
    ReadyShape(s, n);
    RefreshQuiet(s);
    var num := Next(s.queues);
    var s1 := SwapQueues(DRAINING, s, num);
    SameDead(s, s1);
    DueAfterPhase(q0, s.queues);
    hide Phase;
    var d := DrainBare(s1, num, 0);
    AfterRound(q0, s.queues, d);
    t := CountCall(DRAINING, s1.(queues := d));
    BareQueues(s, t, n);
    LeadsOne(DRAINING, s, RefreshEvent([], []), t);
  }

  /** 64 writes of page 0, its trim, and a refresh event. */
  function Round(): seq<Op> {
    Writes(64) + [HostTrim(0)] + [RefreshEvent([], [])]
  }

  lemma AtMovable(q: Q.Queues, r: seq<seq<nat>>, k: seq<seq<nat>>, calls: nat, bit: bool, at: nat)
    requires QueuesAt(q, r, k, calls, bit, at)
    requires bit ==> at == calls % 2 && 63 !in r[calls % 2]
    ensures Movable(q) && q.refresh == r && q.checked == k && q.calls == calls && |r| == |k| == 2
  {
  }

  /** A round flags every layer and refreshes all but layer 63, whose copy stays in the examined
      queue. */
  lemma RoundLeads(s: Ftl, n: nat, r: seq<seq<nat>>, k: seq<seq<nat>>, calls: nat, bit: bool, at: nat) returns (t: Ftl)
    requires Ready(s, n) && n % 64 == 0 && n + 64 <= 512 && QueuesAt(s.queues, r, k, calls, bit, at)
    requires bit ==> at == calls % 2 && 63 !in r[calls % 2]
    requires r[(calls + 1) % 2] == []
    ensures ConfigOk(DRAINING) && Shape(DRAINING, s) && Leads(DRAINING, s, Round(), t) && Bare(t, n + 64)
    ensures var num := (calls + 1) % 2;
      QueuesAt(t.queues, r[num := k[num]], k[num := [63]], calls + 1, true, num)
  {
    hide Shape, ConfigOk, Phase, Movable, Solo, Leads, QueuesAt, Writes, Dead;
    ReadyShape(s, n);
    AtMovable(s.queues, r, k, calls, bit, at);
    var s1 := WritesLead(s, n, 64);
    ReadyShape(s1, n + 64);
    var s2 := TrimOne(s1, n + 64);
    ReadyShape(s2, n + 64);
    t := RefreshFull(s.queues, s2, n + 64);
    LeadsJoin(DRAINING, s, Writes(64), s1, [HostTrim(0)], s2);
    LeadsJoin(DRAINING, s, Writes(64) + [HostTrim(0)], s2, [RefreshEvent([], [])], t);
  }

  /** What taking a lone copy of layer 63 does. */
  function LoneTaken(q: Q.Queues, num: nat): (r: Result<Q.Queues>)
    requires Q.Shape(PARTIAL, q) && num < 2
  {
    var rest := q.(checked := q.checked[num := []]);
    if q.checked[num] == [] || q.queueOf[63] != num then Ok(rest)
    else if q.inserted[63] then Ok(rest.(inserted := q.inserted[63 := false]))
    else Panic(LayerBitmapCorrupted)
  }

  lemma PopLone(q: Q.Queues, num: nat)
    requires Q.Shape(PARTIAL, q) && num < 2 && q.checked[num] == [63]
    ensures var p := Q.Pop(PARTIAL, q, num);
      && p.Ok? == LoneTaken(q, num).Ok? && (p.Panic? ==> p.why == LoneTaken(q, num).why)
      && (p.Ok? ==> p.value.q == LoneTaken(q, num).value && p.value.layer == 63)
  {
    assert q.checked[num][1..] == [];
  }

  lemma DrainLone(s: Ftl, num: nat)
    requires ConfigOk(DRAINING) && Shape(DRAINING, s) && s.blocks.Keys == {0} && Dead(s, 0) && num < 2
    requires Q.Shape(PARTIAL, s.queues) && (s.queues.checked[num] == [] || s.queues.checked[num] == [63])
    ensures var l := LoneTaken(s.queues, num);
      Drain(DRAINING, s, num, 63) == if l.Ok? then Ok(s.(queues := l.value)) else Panic(l.why)
  {
    hide Shape, ConfigOk, Dead, Q.Pop, CopyPages, LoneTaken;
    if s.queues.checked[num] == [] {
      TakenNone(s.queues, num);
    } else {
      PopLone(s.queues, num);
      TakenEmpty(s.queues, num);
      if LoneTaken(s.queues, num).Ok? {
        var s1 := s.(queues := LoneTaken(s.queues, num).value);
        SameDead(s, s1);
        LoneShape(s, num);
        DeadCopied(DRAINING, s1, 0, 63, Q.LAYERS_PER_BLOCK, true);
        assert RefreshLayer(DRAINING, s, num) == Ok(s1);
        assert Drain(DRAINING, s1, num, 62) == Ok(s1);
      }
    }
  }

  lemma LoneShape(s: Ftl, num: nat)
    requires Shape(DRAINING, s) && num < 2 && LoneTaken(s.queues, num).Ok?
    ensures Shape(DRAINING, s.(queues := LoneTaken(s.queues, num).value))
  {
  }

  lemma TakenNone(q: Q.Queues, num: nat)
    requires Q.Shape(PARTIAL, q) && num < 2 && q.checked[num] == []
    ensures LoneTaken(q, num) == Ok(q)
  {
    assert q.checked[num := []] == q.checked;
  }

  lemma TakenEmpty(q: Q.Queues, num: nat)
    requires Q.Shape(PARTIAL, q) && num < 2
    ensures LoneTaken(q, num).Ok? ==> |LoneTaken(q, num).value.checked| == 2 && LoneTaken(q, num).value.checked[num] == []
  {
  }

  /** A refresh event that examines a queue with at most a copy of layer 63. */
  lemma LoneRefresh(s: Ftl, n: nat, r: seq<seq<nat>>, k: seq<seq<nat>>, calls: nat, bit: bool, at: nat) returns (t: Ftl)
    requires Bare(s, n) && QueuesAt(s.queues, r, k, calls, bit, at)
    requires var num := (calls + 1) % 2;
      r[num] == [] || (r[num] == [63] && (at == num ==> bit))
    ensures ConfigOk(DRAINING) && Shape(DRAINING, s) && Leads(DRAINING, s, [RefreshEvent([], [])], t) && Bare(t, n)
    ensures var num := (calls + 1) % 2;
      QueuesAt(t.queues, r[num := k[num]], k[num := []], calls + 1, bit && (r[num] == [] || at != num), at)
  {
    hide Shape, ConfigOk, Solo, Dead, Drain, Refresh, RefreshVictimsOk;
    ReadyShape(s, n);
    RefreshQuiet(s);
    var num := Next(s.queues);
    var s1 := SwapQueues(DRAINING, s, num);
    SameDead(s, s1);
    DrainLone(s1, num);
    var d := LoneTaken(s1.queues, num).value;
    t := CountCall(DRAINING, s1.(queues := d));
    assert k[num := r[num]][num := []] == k[num := []];
    BareQueues(s, t, n);
    LeadsOne(DRAINING, s, RefreshEvent([], []), t);
  }

  /** ... and one that finds that copy recorded at its queue with the bit of the layer clear. */
  lemma LonePanic(s: Ftl, n: nat, r: seq<seq<nat>>, k: seq<seq<nat>>, calls: nat)
    requires Bare(s, n) && QueuesAt(s.queues, r, k, calls, false, (calls + 1) % 2) && r[(calls + 1) % 2] == [63]
    ensures ConfigOk(DRAINING) && Shape(DRAINING, s) && RefreshVictimsOk(DRAINING, s, [], [])
    ensures Refresh(DRAINING, s, [], []) == Panic(LayerBitmapCorrupted)
  {
    hide Shape, ConfigOk, Solo, Dead, Drain, Refresh, RefreshVictimsOk;
    ReadyShape(s, n);
    RefreshQuiet(s);
    var s1 := SwapQueues(DRAINING, s, Next(s.queues));
    SameDead(s, s1);
    DrainLone(s1, Next(s.queues));
  }

  // ---------------------------------------------------------------------------------------
  // The run

  /** Three rounds and four refresh events. */
  function Draining(): seq<Op> {
    Round() + Round() + Round() + Refreshes(3) + [RefreshEvent([], [])]
  }

  function Refreshes(n: nat): seq<Op> {
    if n == 0 then [] else Refreshes(n - 1) + [RefreshEvent([], [])]
  }

  /** The constructor takes block 0. */
  lemma ConstructReady()
    ensures ConfigOk(DRAINING) && Construct(DRAINING).Ok? && Ready(Construct(DRAINING).value, 0)
    ensures QueuesAt(Construct(DRAINING).value.queues, [[], []], [[], []], 0, false, 0)
  {
    hide Shape, ConfigOk, Construct, OnePoint;
    ConfigFits();
    ConstructOnePoint(DRAINING);
  }

  /** The updates of the queues along the run. */
  lemma Updates()
    ensures var e: seq<nat> := []; var z: seq<nat> := [63];
      && [e, e][0 := e] == [e, e] && [e, e][1 := e] == [e, e] && [e, e][1 := z] == [e, z]
      && [e, z][0 := z] == [z, z] && [e, z][1 := z] == [e, z] && [e, z][1 := e] == [e, e] && [e, z][0 := e] == [e, z]
      && [z, z][0 := e] == [e, z] && [z, z][1 := z] == [z, z] && [z, z][0 := z] == [z, z] && [z, z][1 := e] == [z, e]
      && [z, e][0 := e] == [e, e] && [z, e][1 := e] == [z, e]
  {
  }

  lemma Rounds(s: Ftl) returns (t: Ftl)
    requires Ready(s, 0) && QueuesAt(s.queues, [[], []], [[], []], 0, false, 0)
    ensures ConfigOk(DRAINING) && Shape(DRAINING, s) && Leads(DRAINING, s, Round() + Round() + Round(), t)
    ensures Bare(t, 192) && QueuesAt(t.queues, [[], [63]], [[63], [63]], 3, true, 1)
  {
    hide Shape, ConfigOk, QueuesAt, Ready, Dead, Leads, Round;
    Updates();
    ReadyShape(s, 0);
    var s1 := RoundLeads(s, 0, [[], []], [[], []], 0, false, 0);
    ReadyShape(s1, 64);
    var s2 := RoundLeads(s1, 64, [[], []], [[], [63]], 1, true, 1);
    ReadyShape(s2, 128);
    t := RoundLeads(s2, 128, [[], []], [[63], [63]], 2, true, 0);
    ReadyShape(t, 192);
    LeadsJoin(DRAINING, s, Round(), s1, Round(), s2);
    LeadsJoin(DRAINING, s, Round() + Round(), s2, Round(), t);
  }

  /** Layer 63 is refreshed, its other copy is skipped, and one copy is left at its queue. */
  lemma ThreeRefreshes(s: Ftl) returns (t: Ftl)
    requires Bare(s, 192) && QueuesAt(s.queues, [[], [63]], [[63], [63]], 3, true, 1)
    ensures ConfigOk(DRAINING) && Shape(DRAINING, s) && Leads(DRAINING, s, Refreshes(3), t)
    ensures Bare(t, 192) && QueuesAt(t.queues, [[], [63]], [[], []], 6, false, 1)
  {
    hide Shape, ConfigOk, QueuesAt, Ready, Dead, Leads;
    Updates();
    ReadyShape(s, 192);
    var s1 := LoneRefresh(s, 192, [[], [63]], [[63], [63]], 3, true, 1);
    ReadyShape(s1, 192);
    var s2 := LoneRefresh(s1, 192, [[63], [63]], [[], [63]], 4, true, 1);
    ReadyShape(s2, 192);
    t := LoneRefresh(s2, 192, [[63], [63]], [[], []], 5, false, 1);
    ReadyShape(t, 192);
    LeadsJoin(DRAINING, s, [RefreshEvent([], [])], s1, [RefreshEvent([], [])], s2);
    LeadsJoin(DRAINING, s, [RefreshEvent([], [])] + [RefreshEvent([], [])], s2, [RefreshEvent([], [])], t);
    assert Refreshes(3) == [RefreshEvent([], [])] + [RefreshEvent([], [])] + [RefreshEvent([], [])] by {
      assert Refreshes(1) == [RefreshEvent([], [])];
      assert Refreshes(2) == [RefreshEvent([], [])] + [RefreshEvent([], [])];
    }
  }

  /** The counterexample: a legal run from the constructor that ends with the panic. */
  lemma BitmapIsCorrupted()
    ensures ConfigOk(DRAINING) && Construct(DRAINING).Ok? && AllWellFormed(DRAINING, Draining())
    ensures LegalRun(DRAINING, Construct(DRAINING).value, Draining())
    ensures Run(DRAINING, Construct(DRAINING).value, Draining()) == Panic(LayerBitmapCorrupted)
  {
    hide Shape, ConfigOk, QueuesAt, Ready, Dead, Construct, Round, Refreshes, Refresh, RefreshVictimsOk;
    ConstructReady();
    var s := Construct(DRAINING).value;
    ReadyShape(s, 0);
    var t := Rounds(s);
    ReadyShape(t, 192);
    var u := ThreeRefreshes(t);
    ReadyShape(u, 192);
    LonePanic(u, 192, [[], [63]], [[], []], 6);
    var last := [RefreshEvent([], [])];
    assert last[1..] == [];
    assert Run(DRAINING, u, last) == Panic(LayerBitmapCorrupted) && LegalRun(DRAINING, u, last);
    var rounds := Round() + Round() + Round();
    hide Leads, LegalRun, Run;
    LeadsJoin(DRAINING, s, rounds, t, Refreshes(3), u);
    RunJoin(DRAINING, s, rounds + Refreshes(3), u, last);
  }
}

/** When "Corrupted layer check bitmap" cannot happen: with at most 25 queues, and refresh events that
    may take every layer, a run keeps exactly one copy of every flagged layer. */
module FtlCopies {
  import opened Outcome
  import opened FlashBlock
  import opened FtlModel
  import opened FtlInvariant
  import opened FtlOperations
  import opened FtlRuns
  import opened FtlQueues
  import L = LayerCopies
  import Q = RefreshQueues

  /** No layer is moved while its queue is examined, and no examined queue is left with layers. */
  predicate FewQueues(c: Config) {
    c.queues.queueCount <= 25 && c.queues.layerSlots <= c.queues.maxLayers
  }

  ghost function Examining(c: Config, num: nat, rest: seq<nat>): Q.Queues -> bool {
    q => L.Draining(c.queues, q, num, rest)
  }

  lemma ExaminingStable(c: Config, num: nat, rest: seq<nat>)
    requires ConfigOk(c) && FewQueues(c)
    ensures Stable(c, Examining(c, num, rest))
  {
    QueuesFit(c);
    hide Q.Shape, Q.SetPeriod, L.Draining, ConfigOk;
    forall q: Q.Queues, e: nat, b: nat, l: nat |
      Examining(c, num, rest)(q) && Q.Shape(c.queues, q) && Q.LAYERS_PER_BLOCK * (b + 1) <= c.queues.layerSlots
      && l < Q.LAYERS_PER_BLOCK
      ensures Examining(c, num, rest)(Q.SetPeriod(c.queues, q, e, b, l))
    {
      L.SetPeriodDraining(c.queues, q, num, rest, e, b, l);
    }
  }

  /** Between two events every examined queue is empty, and every flagged layer has one copy. */
  ghost predicate Settled(c: Config, s: Ftl)
    requires ConfigOk(c)
  {
    L.Draining(c.queues, s.queues, Q.Target(c.queues, s.queues), [])
  }

  /** r keeps the invariant and single copies, or stops with another panic. */
  ghost predicate Sound(c: Config, num: nat, rest: seq<nat>, r: Result<Ftl>) {
    if r.Ok? then Inv(c, r.value) && L.Draining(c.queues, r.value.queues, num, rest)
    else r.why != LayerBitmapCorrupted
  }

  lemma CollectCopies(c: Config, s: Ftl, victims: seq<nat>, num: nat, rest: seq<nat>)
    requires Inv(c, s) && FewQueues(c) && L.Draining(c.queues, s.queues, num, rest)
    requires GcNeeded(c, s) ==> VictimsOk(c, s, victims)
    ensures Sound(c, num, rest, CollectIfNeeded(c, s, victims))
  {
    hide Shape, FreeOk, TableSound, SlotsMapped, Lookup, ConfigOk, L.Draining, CollectIfNeeded, Stable, GcNeeded, VictimsOk;
    CollectIfNeededCore(c, s, victims);
    ExaminingStable(c, num, rest);
    CollectKeeps(c, Examining(c, num, rest), s, victims);
  }

  lemma PopShape(c: Config, s: Ftl, num: nat)
    requires ConfigOk(c) && Shape(c, s) && num < c.queues.queueCount && s.queues.checked[num] != []
    requires Q.Pop(c.queues, s.queues, num).Ok?
    ensures Shape(c, s.(queues := Q.Pop(c.queues, s.queues, num).value.q))
    ensures Q.Pop(c.queues, s.queues, num).value.layer < c.queues.layerSlots
  {
    hide Q.Pop, Q.Shape, ConfigOk;
  }

  lemma ExaminedFits(c: Config, s: Ftl, num: nat, rest: seq<nat>)
    requires ConfigOk(c) && Shape(c, s) && L.Draining(c.queues, s.queues, num, rest)
    ensures num < c.queues.queueCount == |s.queues.checked| && s.queues.checked[num] == rest
  {
    L.DrainingShape(c.queues, s.queues, num, rest);
  }

  lemma RefreshLayerCopies(c: Config, s: Ftl, num: nat, rest: seq<nat>)
    requires Inv(c, s) && FewQueues(c) && L.Draining(c.queues, s.queues, num, rest) && rest != []
    ensures num < c.queues.queueCount == |s.queues.checked| && s.queues.checked[num] == rest
    ensures Sound(c, num, rest[1..], RefreshLayer(c, s, num))
  {
    hide FreeOk, TableSound, SlotsMapped, Lookup, ConfigOk, L.Draining, Q.Pop, Stable, CopyPages, Shape, SameLookup;
    ExaminedFits(c, s, num, rest);
    L.PopDraining(c.queues, s.queues, num, rest);
    RefreshLayerCore(c, s, num);
    PopShape(c, s, num);
    var p := Q.Pop(c.queues, s.queues, num).value;
    var s1 := s.(queues := p.q);
    ExaminingStable(c, num, rest[1..]);
    if p.layer / Q.LAYERS_PER_BLOCK in s.blocks {
      CopyPagesKeeps(c, Examining(c, num, rest[1..]), s1, p.layer / Q.LAYERS_PER_BLOCK, p.layer % Q.LAYERS_PER_BLOCK,
                     Q.LAYERS_PER_BLOCK, true);
    }
  }

  /** The drain loop takes every layer of the examined queue. */
  lemma {:induction false} DrainCopies(c: Config, s: Ftl, num: nat, rest: seq<nat>, n: nat)
    requires Inv(c, s) && FewQueues(c) && L.Draining(c.queues, s.queues, num, rest) && |rest| <= n
    ensures num < c.queues.queueCount && Sound(c, num, [], Drain(c, s, num, n))
    decreases n
  {
    hide FreeOk, TableSound, SlotsMapped, Lookup, ConfigOk, L.Draining, RefreshLayer, Shape;
    ExaminedFits(c, s, num, rest);
    if rest != [] {
      RefreshLayerCopies(c, s, num, rest);
      if RefreshLayer(c, s, num).Ok? {
        DrainCopies(c, RefreshLayer(c, s, num).value, num, rest[1..], n - 1);
      }
    }
  }

  lemma SwapCopies(c: Config, s: Ftl)
    requires Inv(c, s) && Settled(c, s)
    ensures var num := Q.Target(c.queues, s.queues);
      && num < |s.queues.refresh| && Inv(c, SwapQueues(c, s, num)) && |s.queues.refresh[num]| <= c.queues.layerSlots
      && L.Draining(c.queues, SwapQueues(c, s, num).queues, num, s.queues.refresh[num])
  {
    var num := Q.Target(c.queues, s.queues);
    FrameCore(c, s, SwapQueues(c, s, num), {});
    L.SwapDraining(c.queues, s.queues);
    L.DrainingLength(c.queues, SwapQueues(c, s, num).queues, num, s.queues.refresh[num]);
    hide Core, L.Draining;
  }

  lemma CountCopies(c: Config, s: Ftl, num: nat)
    requires Inv(c, s) && L.Draining(c.queues, s.queues, num, [])
    ensures Inv(c, CountCall(c, s)) && Settled(c, CountCall(c, s))
  {
    CountCallCore(c, s);
    hide FreeOk, TableSound, SlotsMapped, Lookup, ConfigOk, Shape, L.Draining;
    L.CountDraining(c.queues, s.queues, num);
  }

  /** r is a state that keeps the invariant and single copies, or stops with another panic. */
  ghost predicate StaysSettled(c: Config, r: Result<Ftl>) {
    if r.Ok? then Inv(c, r.value) && Settled(c, r.value) else r.why != LayerBitmapCorrupted
  }

  lemma RefreshCopies(c: Config, s: Ftl, before: seq<nat>, after: seq<nat>)
    requires Inv(c, s) && FewQueues(c) && Settled(c, s) && RefreshVictimsOk(c, s, before, after)
    ensures StaysSettled(c, Refresh(c, s, before, after))
  {
    hide FreeOk, TableSound, SlotsMapped, Lookup, ConfigOk, Shape, L.Draining, Settled, SwapQueues, CountCall, Drain,
         CollectIfNeeded, GcNeeded, VictimsOk;
    QueuesFit(c);
    SwapCopies(c, s);
    var num := Q.Target(c.queues, s.queues);
    var rest := s.queues.refresh[num];
    var s1 := SwapQueues(c, s, num);
    CollectCopies(c, s1, before, num, rest);
    if CollectIfNeeded(c, s1, before).Ok? {
      var s2 := CollectIfNeeded(c, s1, before).value;
      DrainCopies(c, s2, num, rest, c.queues.maxLayers);
      if Drain(c, s2, num, c.queues.maxLayers).Ok? {
        var s3 := Drain(c, s2, num, c.queues.maxLayers).value;
        CollectCopies(c, s3, after, num, []);
        if CollectIfNeeded(c, s3, after).Ok? {
          CountCopies(c, CollectIfNeeded(c, s3, after).value, num);
        }
      }
    }
  }

  lemma SettledNow(c: Config, s: Ftl, num: nat)
    requires ConfigOk(c) && L.Draining(c.queues, s.queues, num, [])
    ensures Settled(c, s)
  {
  }

  lemma WriteCopies(c: Config, s: Ftl, op: Op)
    requires Inv(c, s) && FewQueues(c) && Settled(c, s) && WellFormed(c, op) && Legal(c, s, op)
    requires op.HostWrite? && Any(op.flag)
    ensures StaysSettled(c, Step(c, s, op))
  {
    hide FreeOk, TableSound, SlotsMapped, Lookup, ConfigOk, Shape, L.Draining, WriteInternal, Stable, Stored, WriteCore,
         GcNeeded, VictimsOk;
    WriteInternalCore(c, s, op.lpn, op.flag, op.data, op.sendToPal, op.victims);
    QueuesFit(c);
    var num := Q.Target(c.queues, s.queues);
    ExaminingStable(c, num, []);
    WriteKeeps(c, Examining(c, num, []), s, op.lpn, op.flag, op.data, op.sendToPal, op.victims);
    if Step(c, s, op).Ok? {
      SettledNow(c, Step(c, s, op).value, num);
    }
  }

  lemma TrimCopies(c: Config, s: Ftl, lpn: nat)
    requires Inv(c, s) && Settled(c, s)
    ensures StaysSettled(c, Trim(c, s, lpn))
  {
    TrimCore(c, s, lpn);
    hide FreeOk, TableSound, SlotsMapped, Lookup, ConfigOk, Shape, L.Draining, Trim, Unmapped, Forgotten;
    if Trim(c, s, lpn).Ok? {
      TrimQueues(c, s, lpn);
    }
  }

  lemma StepCopies(c: Config, s: Ftl, op: Op)
    requires Inv(c, s) && FewQueues(c) && Settled(c, s) && WellFormed(c, op) && Legal(c, s, op)
    ensures StaysSettled(c, Step(c, s, op))
  {
    hide Inv, Settled, Shape, ConfigOk, Trim, Refresh, RefreshVictimsOk, FewQueues, WriteInternal;
    match op
    case HostWrite(_, _, _, _, _) =>
      if Any(op.flag) {
        WriteCopies(c, s, op);
      }
    case HostTrim(lpn) =>
      TrimCopies(c, s, lpn);
    case RefreshEvent(before, after) =>
      RefreshCopies(c, s, before, after);
  }

  /** Over every legal run from a settled state. */
  lemma {:induction false} RunCopies(c: Config, s: Ftl, ops: seq<Op>)
    requires Inv(c, s) && FewQueues(c) && Settled(c, s)
    requires (forall op :: op in ops ==> WellFormed(c, op)) && LegalRun(c, s, ops)
    ensures StaysSettled(c, Run(c, s, ops))
    decreases |ops|
  {
    hide TableSound, SlotsMapped, FreeOk, Shape, ConfigOk, Settled, Legal, Step, WellFormed, FewQueues;
    if ops != [] {
      StepCopies(c, s, ops[0]);
      if Step(c, s, ops[0]).Ok? {
        RunCopies(c, Step(c, s, ops[0]).value, ops[1..]);
      }
    }
  }

  lemma ConstructQueues(c: Config)
    requires ConfigOk(c) && Construct(c).Ok?
    ensures Construct(c).value.queues == Q.Init(c.queues)
  {
    hide ConfigOk, Shape;
  }

  lemma ConstructSettled(c: Config)
    requires ConfigOk(c) && Construct(c).Ok?
    ensures Inv(c, Construct(c).value) && Settled(c, Construct(c).value)
  {
    hide Core, Lookup;
    ConstructCore(c);
    QueuesFit(c);
    ConstructQueues(c);
    var num := Q.Target(c.queues, Q.Init(c.queues));
    L.InitOnce(c.queues, num);
  }

  /** Every flagged layer is once in its recorded refresh queue and nowhere else; the examined queues
      are empty. */
  ghost predicate SingleCopies(c: Config, q: Q.Queues) {
    && |q.checked| == |q.refresh| == c.queues.queueCount && |q.inserted| == |q.queueOf| == c.queues.layerSlots
    && (forall i :: 0 <= i < c.queues.queueCount ==> q.checked[i] == [])
    && (forall i, l :: 0 <= i < c.queues.queueCount && 0 <= l < c.queues.layerSlots ==>
      multiset(q.refresh[i])[l] == if q.inserted[l] && q.queueOf[l] == i then 1 else 0)
  }

  lemma SettledSingle(c: Config, s: Ftl)
    requires ConfigOk(c) && Settled(c, s)
    ensures SingleCopies(c, s.queues)
  {
    var q, num := s.queues, Q.Target(c.queues, s.queues);
    forall i, l | 0 <= i < c.queues.queueCount && 0 <= l < c.queues.layerSlots
      ensures multiset(q.refresh[i])[l] == if q.inserted[l] && q.queueOf[l] == i then 1 else 0
    {
      assert L.Count(q.refresh[i], l) == L.Due(q, num, i, l);
    }
  }

  /** No legal run from the constructor ends with "Corrupted layer check bitmap", and after every one
      each flagged layer has exactly one copy, in the refresh queue of its recorded index. */
  lemma BitmapNeverCorrupted(c: Config, ops: seq<Op>)
    requires ConfigOk(c) && FewQueues(c) && Construct(c).Ok? && forall op :: op in ops ==> WellFormed(c, op)
    requires LegalRun(c, Construct(c).value, ops)
    ensures var r := Run(c, Construct(c).value, ops);
      && r != Panic(LayerBitmapCorrupted)
      && (r.Ok? ==> SingleCopies(c, r.value.queues))
  {
    hide FreeOk, TableSound, SlotsMapped, ConfigOk, Shape, Settled, Run, LegalRun, Construct, FewQueues, SingleCopies,
         WellFormed;
    ConstructSettled(c);
    RunCopies(c, Construct(c).value, ops);
    var r := Run(c, Construct(c).value, ops);
    if r.Ok? {
      SettledSingle(c, r.value);
    }
  }
}

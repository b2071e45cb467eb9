/** How the host interface (hil/hil.cc) schedules the completion of its requests: one event for all of
    them, at the earliest tick at which one is finished. */
module HostCompletion {

  datatype Event = Idle | At(tick: nat)

  /** queue: when the queued requests are finished, earliest first, as the priority queue hands them
      out.  delivered: when the requests were finished whose callbacks have been called. */
  datatype State = State(now: nat, queue: seq<nat>, lastScheduled: nat, event: Event, delivered: seq<nat>)

  function Init(): State {
    State(0, [], 0, Idle, [])
  }

  function Push(queue: seq<nat>, finishedAt: nat): seq<nat> {
    if queue == [] || finishedAt < queue[0] then [finishedAt] + queue else [queue[0]] + Push(queue[1..], finishedAt)
  }

  /** updateCompletion: nothing happens when the event was last scheduled for the same tick. */
  function UpdateCompletion(s: State): State {
    if s.queue != [] && s.lastScheduled != s.queue[0] then s.(lastScheduled := s.queue[0], event := At(s.queue[0]))
    else s
  }

  /** A request that began at some tick up to now turns out to be finished at finishedAt. */
  function Finish(s: State, finishedAt: nat): State {
    UpdateCompletion(s.(queue := Push(s.queue, finishedAt)))
  }

  /** The requests of the queue that are finished by tick */
  function Finished(queue: seq<nat>, tick: nat): (n: nat)
    ensures n <= |queue|
    ensures forall k :: 0 <= k < n ==> queue[k] <= tick
    ensures n < |queue| ==> queue[n] > tick
  {
    if queue == [] || queue[0] > tick then 0 else 1 + Finished(queue[1..], tick)
  }

  /** completion, at the current tick */
  function Completion(s: State): State {
    var n := Finished(s.queue, s.now);
    UpdateCompletion(s.(queue := s.queue[n..], delivered := s.delivered + s.queue[..n]))
  }

  datatype Step =
    | Request(finishedAt: nat)  // a request is handed down, and is finished at that tick
    | Wait(tick: nat)           // time passes without an event of the host interface
    | Fire                      // the completion event

  predicate Enabled(s: State, e: Step) {
    match e
    case Request(finishedAt) => s.now <= finishedAt
    case Wait(tick) => s.now <= tick && (s.event.At? ==> tick <= s.event.tick)
    case Fire => s.event.At?
  }

  function Next(s: State, e: Step): State
    requires Enabled(s, e)
  {
    match e
    case Request(finishedAt) => Finish(s, finishedAt)
    case Wait(tick) => s.(now := tick)
    case Fire => Completion(s.(now := s.event.tick, event := Idle))
  }

  predicate Sorted(queue: seq<nat>) {
    forall i, j :: 0 <= i < j < |queue| ==> queue[i] <= queue[j]
  }

  predicate Inv(s: State) {
    && Sorted(s.queue) && (s.queue != [] ==> s.queue[0] == s.lastScheduled)
    && (s.event.At? ==> s.queue != [] && s.event.tick == s.lastScheduled && s.now <= s.lastScheduled)
  }

  /** Every queued request is certain to be completed: the event is scheduled for the earliest of them. */
  predicate Awake(s: State) {
    s.queue != [] ==> s.event == At(s.queue[0])
  }

  lemma {:induction false} FinishedAt(queue: seq<nat>, tick: nat, n: nat)
    requires n <= |queue| && (forall k :: 0 <= k < n ==> queue[k] <= tick) && (n < |queue| ==> queue[n] > tick)
    ensures Finished(queue, tick) == n
  {
    if n > 0 {
      FinishedAt(queue[1..], tick, n - 1);
    }
  }

  lemma {:induction false} PushAt(queue: seq<nat>, finishedAt: nat, k: nat)
    requires k <= |queue| && forall j :: 0 <= j < k ==> queue[j] <= finishedAt
    requires k < |queue| ==> finishedAt < queue[k]
    ensures Push(queue, finishedAt) == queue[..k] + [finishedAt] + queue[k..]
  {
    if k > 0 {
      PushAt(queue[1..], finishedAt, k - 1);
    }
  }

  lemma {:induction false} PushKeeps(queue: seq<nat>, finishedAt: nat)
    ensures multiset(Push(queue, finishedAt)) == multiset(queue) + multiset{finishedAt}
  {
    if queue != [] && finishedAt >= queue[0] {
      PushKeeps(queue[1..], finishedAt);
      assert queue == [queue[0]] + queue[1..];
    }
  }

  lemma {:induction false} PushMembers(queue: seq<nat>, finishedAt: nat)
    ensures forall x :: x in Push(queue, finishedAt) <==> x in queue || x == finishedAt
  {
    if queue != [] && finishedAt >= queue[0] {
      PushMembers(queue[1..], finishedAt);
      assert queue == [queue[0]] + queue[1..];
    }
  }

  lemma {:induction false} PushSorted(queue: seq<nat>, finishedAt: nat)
    requires Sorted(queue)
    ensures Sorted(Push(queue, finishedAt)) && Push(queue, finishedAt) != []
    ensures Push(queue, finishedAt)[0] == if queue == [] || finishedAt < queue[0] then finishedAt else queue[0]
  {
    if queue != [] && finishedAt >= queue[0] {
      var rest := Push(queue[1..], finishedAt);
      PushSorted(queue[1..], finishedAt);
      PushMembers(queue[1..], finishedAt);
      assert Push(queue, finishedAt) == [queue[0]] + rest;
      hide Push;
      forall k | 0 <= k < |rest|
        ensures queue[0] <= rest[k]
      {
        assert rest[k] in rest;
      }
    }
  }

  lemma StepInv(s: State, e: Step)
    requires Inv(s) && Enabled(s, e)
    ensures Inv(Next(s, e))
  {
    if e.Request? {
      PushSorted(s.queue, e.finishedAt);
    }
  }

  /** A step leaves all queued requests certain of their completion, except in one case: nothing is
      queued, and a request is finished at the very tick for which the event was scheduled last. */
  lemma StepAwake(s: State, e: Step)
    requires Inv(s) && Awake(s) && Enabled(s, e)
    ensures Inv(Next(s, e))
    ensures Awake(Next(s, e)) <==> !(e.Request? && s.queue == [] && e.finishedAt == s.lastScheduled)
  {
    match e
    case Request(finishedAt) => PushSorted(s.queue, finishedAt);
    case Wait(_) =>
    case Fire =>
  }

  /** The event is idle, and the earliest request has been finished. */
  predicate Stuck(s: State) {
    s.queue != [] && s.event == Idle && s.queue[0] <= s.now
  }

  /** In that case no request is ever completed again. */
  lemma {:induction false} StuckForever(s: State, es: seq<Step>)
    requires Inv(s) && Stuck(s) && LegalRun(s, es)
    ensures Inv(Run(s, es)) && Stuck(Run(s, es)) && Run(s, es).delivered == s.delivered
    decreases |es|
  {
    if es != [] {
      if es[0].Request? {
        PushSorted(s.queue, es[0].finishedAt);
      }
      StuckForever(Next(s, es[0]), es[1..]);
    }
  }

  predicate LegalRun(s: State, es: seq<Step>)
    decreases |es|
  {
    es == [] || (Enabled(s, es[0]) && LegalRun(Next(s, es[0]), es[1..]))
  }

  function Run(s: State, es: seq<Step>): State
    requires LegalRun(s, es)
    decreases |es|
  {
    if es == [] then s else Run(Next(s, es[0]), es[1..])
  }

  /** As long as no request falls into that case, every run keeps all queued requests certain of
      their completion, and the event delivers at least the earliest of them. */
  lemma {:induction false} RunAwake(s: State, es: seq<Step>)
    requires Inv(s) && Awake(s) && LegalRun(s, es) && Punctual(s, es)
    ensures Inv(Run(s, es)) && Awake(Run(s, es)) && s.delivered <= Run(s, es).delivered
    decreases |es|
  {
    if es != [] {
      StepAwake(s, es[0]);
      RunAwake(Next(s, es[0]), es[1..]);
    }
  }

  /** The requests of a run. */
  function Requested(es: seq<Step>): multiset<nat> {
    if es == [] then multiset{}
    else (if es[0].Request? then multiset{es[0].finishedAt} else multiset{}) + Requested(es[1..])
  }

  /** The requests whose callbacks have been called, and those that are queued */
  function Accounted(s: State): multiset<nat> {
    multiset(s.delivered) + multiset(s.queue)
  }

  lemma SameAccounted(s: State, t: State)
    requires t.queue == s.queue && t.delivered == s.delivered
    ensures Accounted(t) == Accounted(s)
  {
  }

  lemma UpdateAccounted(s: State)
    ensures Accounted(UpdateCompletion(s)) == Accounted(s)
  {
  }

  lemma PushAccounted(s: State, finishedAt: nat)
    ensures Accounted(s.(queue := Push(s.queue, finishedAt))) == Accounted(s) + multiset{finishedAt}
  {
    PushKeeps(s.queue, finishedAt);
    hide Push;
  }

  lemma DeliverAccounted(s: State, n: nat)
    requires n <= |s.queue|
    ensures Accounted(s.(queue := s.queue[n..], delivered := s.delivered + s.queue[..n])) == Accounted(s)
  {
    assert s.queue == s.queue[..n] + s.queue[n..];
  }

  lemma StepConserves(s: State, e: Step)
    requires Enabled(s, e)
    ensures Accounted(Next(s, e)) == Accounted(s) + if e.Request? then multiset{e.finishedAt} else multiset{}
  {
    hide Push, Finished, UpdateCompletion, Accounted;
    match e
    case Request(finishedAt) =>
      var t := s.(queue := Push(s.queue, finishedAt));
      PushAccounted(s, finishedAt);
      UpdateAccounted(t);
    case Wait(tick) => SameAccounted(s, Next(s, e));
    case Fire =>
      var t := s.(now := s.event.tick, event := Idle);
      var n := Finished(t.queue, t.now);
      SameAccounted(s, t);
      DeliverAccounted(t, n);
      UpdateAccounted(t.(queue := t.queue[n..], delivered := t.delivered + t.queue[..n]));
  }

  /** No completion is delivered twice, and none is dropped: over any run, what was delivered and what
      is queued are together exactly what was requested. */
  lemma {:induction false} RunConserves(s: State, es: seq<Step>)
    requires LegalRun(s, es)
    ensures Accounted(Run(s, es)) == Accounted(s) + Requested(es)
    decreases |es|
  {
    hide Next, Enabled, Accounted;
    if es != [] {
      StepConserves(s, es[0]);
      RunConserves(Next(s, es[0]), es[1..]);
    }
  }

  predicate Punctual(s: State, es: seq<Step>)
    requires LegalRun(s, es)
    decreases |es|
  {
    es == [] || (!(es[0].Request? && s.queue == [] && es[0].finishedAt == s.lastScheduled)
                 && Punctual(Next(s, es[0]), es[1..]))
  }

  lemma FireDelivers(s: State)
    requires Inv(s) && Awake(s) && s.queue != []
    ensures Enabled(s, Fire) && s.delivered < Next(s, Fire).delivered && s.queue[0] in Next(s, Fire).delivered
  {
    var n := Finished(s.queue, s.event.tick);
    assert s.queue[..n][0] == s.queue[0];
    assert Next(s, Fire).delivered == s.delivered + s.queue[..n];
  }

  /** Two requests that take no time, the second at the tick at which the first is completed. */
  lemma SecondIsLost()
    ensures var es := [Wait(5), Request(5), Fire, Request(5)];
      LegalRun(Init(), es) && Run(Init(), es).delivered == [5] && Stuck(Run(Init(), es))
  {
    var s1 := Next(Init(), Wait(5));
    var s2 := Next(s1, Request(5));
    assert s2 == State(5, [5], 5, At(5), []);
    var s3 := Next(s2, Fire);
    assert s3 == State(5, [], 5, Idle, [5]);
    var s4 := Next(s3, Request(5));
    var es := [Wait(5), Request(5), Fire, Request(5)];
    assert es[1..] == [Request(5), Fire, Request(5)] && es[1..][1..] == [Fire, Request(5)];
    assert es[1..][1..][1..] == [Request(5)] && es[1..][1..][1..][1..] == [];
    assert Run(s4, []) == s4;
  }
}

/** The host interface (hil/hil.cc) as the object that its requests change: three busy times, for
    reads, for writes and for both, and the queue of finished requests. */
module HostInterface {
  import opened BusyTime
  import C = HostCompletion

  datatype Kind = Read | Write | Other  // Other: flush, trim and format, which no busy time counts

  /** A busy time stands for the reported requests, none of which begins after now. */
  ghost predicate Counts(reported: seq<Interval>, s: Stat, now: nat) {
    InOrder(reported) && (forall i | i in reported :: i.begin <= now) && s == Account(reported)
  }

  lemma CountsNext(reported: seq<Interval>, s: Stat, now: nat, end: nat)
    requires Counts(reported, s, now) && now <= end
    ensures var reqs := reported + [Interval(now, end)];
      Counts(reqs, Update(s, Interval(now, end)), now) && Update(s, Interval(now, end)).busy == UnionSize(reqs)
  {
    var reqs := reported + [Interval(now, end)];
    assert reqs[..|reqs| - 1] == reported;
    forall k | 0 <= k < |reported|
      ensures reqs[k].begin <= now
    {
      assert reqs[k] in reported;
    }
    BusyIsUnion(reqs);
  }

  lemma CountsLater(reported: seq<Interval>, s: Stat, now: nat, later: nat)
    requires Counts(reported, s, now) && now <= later
    ensures Counts(reported, s, later)
  {
  }

  /** Reads count for the first and the third busy time, writes for the second and the third. */
  ghost function Reported(reported: seq<seq<Interval>>, kind: Kind, i: Interval): seq<seq<Interval>>
    requires |reported| == 3
  {
    match kind
    case Read => [reported[0] + [i], reported[1], reported[2] + [i]]
    case Write => [reported[0], reported[1] + [i], reported[2] + [i]]
    case Other => reported
  }

  class HIL {
    var stat: seq<Stat>  // busy and lastBusyAt by index
    var completionQueue: seq<nat>
    var lastScheduled: nat
    var completionEvent: C.Event
    var now: nat
    ghost var reported: seq<seq<Interval>>
    ghost var delivered: seq<nat>

    ghost function State(): C.State
      reads this
    {
      C.State(now, completionQueue, lastScheduled, completionEvent, delivered)
    }

    ghost predicate Counted()
      reads `stat, `reported, `now
    {
      |stat| == |reported| == 3 && forall k :: 0 <= k < 3 ==> Counts(reported[k], stat[k], now)
    }

    ghost predicate Valid()
      reads this
    {
      Counted() && C.Inv(State())
    }

    constructor ()
      ensures Valid() && State() == C.Init() && stat == [Stat(0, 0), Stat(0, 0), Stat(0, 0)]
    {
      stat := [Stat(0, 0), Stat(0, 0), Stat(0, 0)];
      completionQueue, lastScheduled, completionEvent, now := [], 0, C.Idle, 0;
      reported, delivered := [[], [], []], [];
    }

    static method Extended(s: Stat, begin: nat, end: nat) returns (t: Stat)
      ensures t == Update(s, Interval(begin, end))
    {
      if end <= s.lastBusyAt {
        return s;
      }
      if begin < s.lastBusyAt {
        t := Stat(s.busy + (end - s.lastBusyAt), end);
      } else {
        t := Stat(s.busy + (end - begin), end);
      }
    }

    method UpdateBusyTime(idx: nat, end: nat)
      requires Valid() && idx < 3 && now <= end
      modifies `reported, `stat
      ensures Valid() && reported == old(reported)[idx := old(reported[idx]) + [Interval(now, end)]]
      ensures stat[idx].busy == UnionSize(reported[idx])
      ensures forall other :: 0 <= other < 3 && other != idx ==> stat[other] == old(stat[other])
    {
      hide Counts, UnionSize, Update, C.Inv;
      CountsNext(reported[idx], stat[idx], now, end);
      var t := Extended(stat[idx], now, end);
      reported := reported[idx := reported[idx] + [Interval(now, end)]];
      stat := stat[idx := t];
    }

    method UpdateCompletion()
      modifies `lastScheduled, `completionEvent
      ensures State() == C.UpdateCompletion(old(State()))
    {
      if |completionQueue| > 0 {
        if lastScheduled != completionQueue[0] {
          lastScheduled := completionQueue[0];
          completionEvent := C.At(lastScheduled);
        }
      }
    }

    /** completionQueue.push */
    method Push(finishedAt: nat)
      modifies `completionQueue
      ensures completionQueue == C.Push(old(completionQueue), finishedAt)
    {
      var k := 0;
      while k < |completionQueue| && finishedAt >= completionQueue[k]
        invariant k <= |completionQueue| && completionQueue == old(completionQueue)
        invariant forall j :: 0 <= j < k ==> completionQueue[j] <= finishedAt
      {
        k := k + 1;
      }
      C.PushAt(completionQueue, finishedAt, k);
      completionQueue := completionQueue[..k] + [finishedAt] + completionQueue[k..];
    }

    /** What each kind of request reports as busy. */
    method CountRequest(kind: Kind, finishedAt: nat)
      requires Valid() && now <= finishedAt
      modifies `reported, `stat
      ensures Valid() && reported == Reported(old(reported), kind, Interval(now, finishedAt))
    {
      hide Counts, UnionSize, C.Inv;
      match kind {
        case Read => UpdateBusyTime(0, finishedAt); UpdateBusyTime(2, finishedAt);
        case Write => UpdateBusyTime(1, finishedAt); UpdateBusyTime(2, finishedAt);
        case Other =>
      }
    }

    /** A request that begins now and is finished at the given tick.  Its completion is certain unless
        nothing is queued and the event was scheduled for that very tick last. */
    method Request(kind: Kind, finishedAt: nat)
      requires Valid() && now <= finishedAt
      modifies this
      ensures Valid()
      ensures State() == C.Next(old(State()), C.Request(finishedAt))
      ensures old(C.Awake(State())) ==>
        (C.Awake(State()) <==> !(old(completionQueue) == [] && finishedAt == old(lastScheduled)))
      ensures reported == Reported(old(reported), kind, Interval(now, finishedAt))
    {
      hide Counted, C.Push, C.Inv, C.Awake, C.UpdateCompletion, Reported;
      RequestSteps(State(), finishedAt);
      CountRequest(kind, finishedAt);
      Push(finishedAt);
      UpdateCompletion();
    }

    static lemma RequestSteps(s: C.State, finishedAt: nat)
      requires C.Inv(s) && s.now <= finishedAt
      ensures var t := C.Next(s, C.Request(finishedAt));
        && C.Inv(t) && t.now == s.now
        && (C.Awake(s) ==> (C.Awake(t) <==> !(s.queue == [] && finishedAt == s.lastScheduled)))
    {
      hide C.Push, C.Inv, C.Awake;
      C.StepInv(s, C.Request(finishedAt));
      if C.Awake(s) {
        C.StepAwake(s, C.Request(finishedAt));
      }
    }

    method Advance(tick: nat)
      requires Counted() && now <= tick
      modifies `now
      ensures Counted() && now == tick
    {
      CountsLater(reported[0], stat[0], now, tick);
      CountsLater(reported[1], stat[1], now, tick);
      CountsLater(reported[2], stat[2], now, tick);
      hide Counts;
      now := tick;
    }

    /** The completion event: the callbacks of all requests that are finished by now. */
    method Completion()
      requires Valid() && completionEvent.At?
      modifies this
      ensures Valid() && State() == C.Next(old(State()), C.Fire)
      ensures stat == old(stat) && reported == old(reported)
    {
      ghost var s := State();
      C.StepInv(s, C.Fire);
      assert now <= completionEvent.tick;
      hide C.Inv, C.Finished, C.UpdateCompletion, C.Sorted;
      Advance(completionEvent.tick);
      completionEvent := C.Idle;
      PopFinished();
      UpdateCompletion();
    }

    /** The loop of completion. */
    method PopFinished()
      modifies `completionQueue, `delivered
      ensures var n := C.Finished(old(completionQueue), now);
        completionQueue == old(completionQueue)[n..] && delivered == old(delivered) + old(completionQueue)[..n]
    {
      ghost var queue, before, n := completionQueue, delivered, 0;
      while |completionQueue| > 0 && completionQueue[0] <= now
        invariant n <= |queue| && completionQueue == queue[n..] && delivered == before + queue[..n]
        invariant forall k :: 0 <= k < n ==> queue[k] <= now
        decreases |completionQueue|
      {
        delivered := delivered + [completionQueue[0]];
        completionQueue := completionQueue[1..];
        n := n + 1;
      }
      C.FinishedAt(queue, now, n);
    }
  }
}

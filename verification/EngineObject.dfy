/** The event engine (sim/engine.cc) as the object that its operations change in place.  The stamps
    and their clock are not part of the source: they record the order of scheduling. */
module EngineObject {
  import opened Outcome
  import opened EventEngine

  class Engine {
    var simTick: nat
    var counter: nat
    var forceStop: bool
    var eventList: set<nat>
    var eventQueue: seq<Entry>
    var clock: nat
    ghost var fired: seq<Entry>

    ghost function State(): State
      reads this
    {
      EventEngine.State(simTick, counter, forceStop, eventList, eventQueue, clock, fired)
    }

    ghost predicate Valid()
      reads this
    {
      Inv(State())
    }

    constructor ()
      ensures Valid() && State() == Init()
    {
      simTick, counter, forceStop, eventList, eventQueue, clock, fired := 0, 0, false, {}, [], 0, [];
    }

    /** One pass finds both the old entry of the event and the place of the new one. */
    method FindPlace(e: Entry) returns (found: bool, previous: nat, insert: nat)
      requires Sorted(eventQueue)
      ensures previous == Find(eventQueue, e.id) && found == (previous < |eventQueue|)
      ensures insert == Position(eventQueue, e.tick)
    {
      found := false;
      var flag := false;
      previous, insert := |eventQueue|, |eventQueue|;
      for i := 0 to |eventQueue|
        invariant !found ==> previous == |eventQueue| && forall j :: 0 <= j < i ==> eventQueue[j].id != e.id
        invariant found ==> previous < i && eventQueue[previous].id == e.id
        invariant found ==> forall j :: 0 <= j < previous ==> eventQueue[j].id != e.id
        invariant !flag ==> insert == |eventQueue| && forall j :: 0 <= j < i ==> eventQueue[j].tick <= e.tick
        invariant flag ==> insert < i && eventQueue[insert].tick > e.tick
        invariant flag ==> forall j :: 0 <= j < insert ==> eventQueue[j].tick <= e.tick
      {
        if eventQueue[i].id == e.id {
          found := true;
          previous := i;
        }
        if eventQueue[i].tick > e.tick && !flag {
          insert := i;
          flag := true;
        }
      }
    }

    /** insertEvent; an event that is scheduled for the same tick already stays where it is. */
    method InsertEvent(e: Entry) returns (found: bool)
      requires Sorted(eventQueue)
      modifies `eventQueue, `clock
      ensures var was := Find(old(eventQueue), e.id);
        if was < |old(eventQueue)| && old(eventQueue)[was].tick == e.tick then
          !found && eventQueue == old(eventQueue) && clock == old(clock)
        else
          && found == (was < |old(eventQueue)|)
          && eventQueue == Insert(old(eventQueue), e) && clock == old(clock) + 1
    {
      hide Before, Find, Position;
      var previous, insert;
      found, previous, insert := FindPlace(e);
      if found && eventQueue[previous].tick == e.tick {
        return false;
      }
      clock := clock + 1;
      eventQueue := eventQueue[..insert] + [e] + eventQueue[insert..];
      if found {
        var shifted := if previous < insert then previous else previous + 1;
        eventQueue := eventQueue[..shifted] + eventQueue[shifted + 1..];
      }
    }

    method RemoveEvent(id: nat) returns (found: bool)
      modifies `eventQueue
      ensures eventQueue == Remove(old(eventQueue), id)
      ensures found <==> Find(old(eventQueue), id) < |old(eventQueue)|
    {
      found := false;
      for i := 0 to |eventQueue|
        invariant eventQueue == old(eventQueue)
        invariant forall j :: 0 <= j < i ==> eventQueue[j].id != id
      {
        if eventQueue[i].id == id {
          eventQueue := eventQueue[..i] + eventQueue[i + 1..];
          return true;
        }
      }
    }

    method AllocateEvent() returns (eid: nat)
      requires Valid()
      modifies this
      ensures Valid() && Allocate(old(State())) == Ok(State())
      ensures eid == counter && eid !in old(eventList)
    {
      counter := counter + 1;
      eventList := eventList + {counter};
      eid := counter;
    }

    method ScheduleEvent(eid: nat, tick: nat) returns (r: Result<()>)
      requires Valid()
      modifies this
      ensures Valid() && Schedule(old(State()), eid, tick) == if r.Ok? then Ok(State()) else Panic(r.why)
      ensures r.Ok? <==> eid in old(eventList)
    {
      hide Find, Insert, Inv;
      ApplyInv(State(), ScheduleOp(eid, tick));
      if eid !in eventList {
        return Panic(UnknownEvent);
      }
      var due := if tick < simTick then simTick else tick;
      QueueSorted(State());
      var _ := InsertEvent(Entry(eid, due, clock));
      r := Ok(());
    }

    static lemma QueueSorted(s: State)
      requires Inv(s)
      ensures Sorted(s.queue)
    {
    }

    method DescheduleEvent(eid: nat) returns (r: Result<()>)
      requires Valid()
      modifies this
      ensures Valid() && Deschedule(old(State()), eid) == if r.Ok? then Ok(State()) else Panic(r.why)
    {
      ApplyInv(State(), DescheduleOp(eid));
      if eid !in eventList {
        return Panic(UnknownEvent);
      }
      var _ := RemoveEvent(eid);
      r := Ok(());
    }

    method DeallocateEvent(eid: nat) returns (r: Result<()>)
      requires Valid()
      modifies this
      ensures Valid() && Deallocate(old(State()), eid) == if r.Ok? then Ok(State()) else Panic(r.why)
    {
      ApplyInv(State(), DeallocateOp(eid));
      if eid !in eventList {
        return Panic(UnknownEvent);
      }
      var _ := RemoveEvent(eid);
      eventList := eventList - {eid};
      r := Ok(());
    }

    /** handled is the event whose handler runs next, and what the handler does is not part of this. */
    method DoNextEvent() returns (more: bool, handled: nat)
      requires Valid()
      modifies this
      ensures Valid() && EventEngine.DoNextEvent(old(State())) == Ok(State())
      ensures more <==> !forceStop && old(eventQueue) != []
      ensures more ==> handled in eventList && handled == old(eventQueue)[0].id && old(simTick) <= simTick
    {
      NextInv(State());
      if forceStop {
        return false, 0;
      }
      if |eventQueue| > 0 {
        var now := eventQueue[0];
        assert now in eventQueue;
        simTick := now.tick;
        eventQueue := eventQueue[1..];
        fired := fired + [now];
        return true, now.id;
      }
      return false, 0;
    }
  }
}

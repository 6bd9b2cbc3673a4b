/** ConcurrentTimer of concurrency.hpp: a multimap of deadlines, its inverse map, and a timed-out set. */
module ConcurrentTimers {
  import opened TimerModel

  /** std::chrono::steady_clock: each reading is at least the one before. */
  class Clock {
    var now: int

    constructor () {
      now := 0;
    }

    method Read() returns (t: int)
      modifies this
      ensures old(now) <= now == t
    {
      t :| now <= t;
      now := t;
    }
  }

  /** The multimap is ordered by time, and it and the map of registered events are one relation. */
  ghost predicate Agree<E>(events: seq<(int, E)>, registered: map<E, int>) {
    && Ordered(events)
    && Inverse(events, registered)
  }

  ghost predicate Ordered<E>(events: seq<(int, E)>) {
    forall i, j :: 0 <= i < j < |events| ==> events[i].0 <= events[j].0 && events[i].1 != events[j].1
  }

  ghost predicate Inverse<E>(events: seq<(int, E)>, registered: map<E, int>) {
    && (forall i :: 0 <= i < |events| ==> events[i].1 in registered && registered[events[i].1] == events[i].0)
    && (forall e :: e in registered ==> (registered[e], e) in events)
  }

  function EraseAt<E>(events: seq<(int, E)>, i: nat): seq<(int, E)>
    requires i < |events|
  {
    events[..i] + events[i + 1..]
  }

  lemma EraseKeepsAgreement<E>(events: seq<(int, E)>, registered: map<E, int>, i: nat)
    requires Agree(events, registered) && i < |events|
    ensures Agree(EraseAt(events, i), registered - {events[i].1})
  {
    var rest := EraseAt(events, i);
    forall e | e in registered && e != events[i].1
      ensures (registered[e], e) in rest
    {
      var k :| 0 <= k < |events| && events[k] == (registered[e], e);
      assert rest[if k < i then k else k - 1] == events[k];
    }
  }

  function InsertAt<E>(events: seq<(int, E)>, i: nat, tp: int, e: E): (r: seq<(int, E)>)
    requires i <= |events|
    ensures |r| == |events| + 1
    ensures forall k :: 0 <= k < |r| ==> r[k] == if k < i then events[k] else if k == i then (tp, e) else events[k - 1]
  {
    events[..i] + [(tp, e)] + events[i..]
  }

  lemma EmplaceKeepsOrder<E>(events: seq<(int, E)>, i: nat, tp: int, e: E)
    requires Ordered(events) && i <= |events|
    requires forall k :: 0 <= k < |events| ==> events[k].1 != e
    requires forall k :: 0 <= k < i ==> events[k].0 <= tp
    requires forall k :: i <= k < |events| ==> tp < events[k].0
    ensures Ordered(InsertAt(events, i, tp, e))
  {}

  lemma EmplaceKeepsInverse<E>(events: seq<(int, E)>, registered: map<E, int>, i: nat, tp: int, e: E)
    requires Inverse(events, registered) && i <= |events| && e !in registered
    ensures Inverse(InsertAt(events, i, tp, e), registered[e := tp])
  {
    var more, registered' := InsertAt(events, i, tp, e), registered[e := tp];
    assert more[i] == (tp, e);
    forall k | 0 <= k < |more|
      ensures more[k].1 in registered' && registered'[more[k].1] == more[k].0
    {
      if k < i {
        assert more[k] == events[k];
      } else if k > i {
        assert more[k] == events[k - 1];
      }
    }
    forall e' | e' in registered
      ensures (registered[e'], e') in more
    {
      var k :| 0 <= k < |events| && events[k] == (registered[e'], e');
      assert more[if k < i then k else k + 1] == events[k];
    }
  }

  /** The two indexes hold the same number of events. */
  lemma {:induction false} SameSize<E>(events: seq<(int, E)>, registered: map<E, int>)
    requires Agree(events, registered)
    ensures |events| == |registered|
  {
    if |events| == 0 {
      assert registered == map[];
    } else {
      EraseKeepsAgreement(events, registered, 0);
      SameSize(EraseAt(events, 0), registered - {events[0].1});
      assert registered.Keys == (registered - {events[0].1}).Keys + {events[0].1};
    }
  }

  class ConcurrentTimer<E(==)> {
    var events: seq<(int, E)>
    var registered: map<E, int>
    var timedOut: set<E>

    ghost predicate Valid()
      reads this
    {
      Agree(events, registered)
    }

    /** The abstract timer. */
    function Model(): Timer<E>
      reads this
    {
      Timer(registered, timedOut)
    }

    /** start() */
    constructor ()
      ensures Valid() && Model() == Timer(map[], {})
    {
      events, registered, timedOut := [], map[], {};
    }

    /** The bounds of multimap::equal_range. */
    method EqualRange(tp: int) returns (low: nat, high: nat)
      requires Valid()
      ensures low <= high <= |events|
      ensures forall k :: 0 <= k < |events| ==> (low <= k < high <==> events[k].0 == tp)
      ensures forall k :: 0 <= k < high ==> events[k].0 <= tp
      ensures forall k :: high <= k < |events| ==> tp < events[k].0
    {
      low := 0;
      while low < |events| && events[low].0 < tp
        invariant low <= |events|
        invariant forall k :: 0 <= k < low ==> events[k].0 < tp
      {
        low := low + 1;
      }
      high := low;
      while high < |events| && events[high].0 <= tp
        invariant low <= high <= |events|
        invariant forall k :: low <= k < high ==> events[k].0 == tp
      {
        high := high + 1;
      }
    }

    /** The search-and-erase loop that register_event and remove_event share. */
    method EraseEvent(event: E)
      requires Valid() && event in registered
      modifies this
      ensures Valid()
      ensures registered == old(registered) - {event} && timedOut == old(timedOut)
    {
      var tp := registered[event];
      var low, high := EqualRange(tp);
      var it := low;
      ghost var at :| 0 <= at < |events| && events[at] == (tp, event);
      while it < high
        invariant low <= it <= at
        decreases high - it
      {
        if events[it].1 == event {
          EraseKeepsAgreement(events, registered, it);
          events := EraseAt(events, it);
          registered := registered - {event};
          return;
        }
        it := it + 1;
      }
    }

    method RegisterEvent(event: E, timeout: int, clock: Clock)
      requires Valid()
      modifies this, clock
      ensures Valid() && old(clock.now) <= clock.now
      ensures Model() == old(Model()).Register(event, clock.now + timeout)
      ensures registered == old(registered)[event := clock.now + timeout] && timedOut == old(timedOut)
    {
      if event in registered {
        EraseEvent(event);
      }
      var now := clock.Read();
      var tp := now + timeout;
      Emplace(event, tp);
    }

    /** multimap::emplace puts the event after its equals; the inverse map follows. */
    method Emplace(event: E, tp: int)
      requires Valid() && event !in registered
      modifies this
      ensures Valid()
      ensures registered == old(registered)[event := tp] && timedOut == old(timedOut)
    {
      var low, high := EqualRange(tp);
      EmplaceKeepsOrder(events, high, tp, event);
      EmplaceKeepsInverse(events, registered, high, tp, event);
      events := InsertAt(events, high, tp, event);
      registered := registered[event := tp];
    }

    method RemoveEvent(event: E)
      requires Valid()
      modifies this
      ensures Valid()
      ensures Model() == old(Model()).Remove(event)
      ensures event !in registered
      ensures forall e :: e != event ==> (e in registered <==> e in old(registered))
      ensures forall e :: e in registered ==> registered[e] == old(registered)[e]
      ensures timedOut == if event in old(registered) then old(timedOut) - {event} else old(timedOut)
    {
      if event !in registered {
        return;
      }
      EraseEvent(event);
      timedOut := timedOut - {event};
    }

    method QueryEvent(event: E) returns (state: EventState)
      requires Valid()
      ensures state == Model().Query(event)
      ensures state == TimedOut <==> event in timedOut
      ensures state == Normal <==> event in registered && event !in timedOut
    {
      if event in timedOut {
        return TimedOut;
      }
      if event in registered {
        return Normal;
      }
      return Unregistered;
    }

    /** One turn of thread_func. `fired` tells whether the earliest event was due at the first reading;
        then exactly the events due within the slack of the last reading time out. */
    method Poll(clock: Clock) returns (fired: bool, first: int)
      requires Valid()
      modifies this, clock
      ensures Valid() && old(clock.now) <= first <= clock.now
      ensures fired <==> old(Model()).Due(first) != {}
      ensures Model() == if fired then old(Model()).Expire(clock.now + SLACK) else old(Model())
      ensures fired <==> exists e :: e in old(registered) && old(registered)[e] <= first
    {
      if events == [] {
        NothingDue(events, registered, clock.now);
        return false, clock.now;
      }
      ghost var before := Model();
      var now := clock.Read();
      first := now;
      fired := events[0].0 <= now;
      if !fired {
        NothingDue(events, registered, now);
        return;
      }
      assert events[0].1 in before.Due(now);
      ExpireDue(now, clock);
    }

    /** The loop of thread_func that times out every event within the slack of the newest reading. */
    method ExpireDue(reading: int, clock: Clock)
      requires Valid() && reading == clock.now
      modifies this, clock
      ensures Valid() && reading <= clock.now
      ensures Model() == old(Model()).Expire(clock.now + SLACK)
      ensures forall e :: e in registered <==> e in old(registered) && old(registered)[e] > clock.now + 100
      ensures forall e :: e in timedOut <==>
        e in old(timedOut) || (e in old(registered) && old(registered)[e] <= clock.now + 100)
    {
      ghost var before := Model();
      var now := reading;
      ghost var taken: set<E> := {};
      while events != [] && events[0].0 <= now + SLACK
        invariant Valid() && reading <= now == clock.now
        invariant taken <= before.Due(now + SLACK)
        invariant registered == before.deadlines - taken
        invariant timedOut == before.timedOut + taken
        decreases |events|
      {
        taken := taken + {events[0].1};
        ExpireFirst();
        now := clock.Read();
      }
      NothingDue(events, registered, now + SLACK);
      TakenIsDue(before, taken, now + SLACK);
    }

    method ExpireFirst()
      requires Valid() && events != []
      modifies this
      ensures Valid()
      ensures events == old(events)[1..]
      ensures registered == old(registered) - {old(events)[0].1}
      ensures timedOut == old(timedOut) + {old(events)[0].1}
    {
      var event := events[0].1;
      EraseKeepsAgreement(events, registered, 0);
      assert EraseAt(events, 0) == events[1..];
      timedOut := timedOut + {event};
      registered := registered - {event};
      events := events[1..];
    }

    /** map_timed_out_events with clear: the events handed to the callback, in the set's own order. */
    method TakeTimedOut() returns (handed: seq<E>)
      requires Valid()
      modifies this
      ensures Valid()
      ensures Model() == old(Model()).Clear()
      ensures forall e :: e in handed <==> e in old(timedOut)
      ensures forall i, j :: 0 <= i < j < |handed| ==> handed[i] != handed[j]
    {
      handed := [];
      var rest := timedOut;
      while rest != {}
        invariant rest <= timedOut
        invariant forall e :: e in handed <==> e in timedOut && e !in rest
        invariant forall i, j :: 0 <= i < j < |handed| ==> handed[i] != handed[j]
        decreases rest
      {
        var e :| e in rest;
        handed := handed + [e];
        rest := rest - {e};
      }
      timedOut := {};
    }
  }

  lemma NothingDue<E>(events: seq<(int, E)>, registered: map<E, int>, cut: int)
    requires Agree(events, registered)
    requires events == [] || cut < events[0].0
    ensures forall e :: e in registered ==> cut < registered[e]
  {
    forall e | e in registered
      ensures cut < registered[e]
    {
      var k :| 0 <= k < |events| && events[k] == (registered[e], e);
    }
  }

  lemma TakenIsDue<E>(before: Timer<E>, taken: set<E>, cut: int)
    requires taken <= before.Due(cut)
    requires forall e :: e in before.deadlines - taken ==> cut < before.deadlines[e]
    ensures Timer(before.deadlines - taken, before.timedOut + taken) == before.Expire(cut)
  {
    forall e | e in before.Due(cut)
      ensures e in taken
    {
      assert e !in taken ==> e in before.deadlines - taken;
    }
    assert taken == before.Due(cut);
  }
}

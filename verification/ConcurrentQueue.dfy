/** ConcurrentQueue of concurrency.hpp: an ordered set used as a queue; the front is the least element. */
module ConcurrentQueues {
  import opened Options
  import opened SequenceNumbers

  ghost predicate IsLeast(n: nat, s: set<nat>) {
    n in s && forall m :: m in s ==> n <= m
  }

  lemma {:induction false} LeastExists(s: set<nat>)
    requires s != {}
    ensures exists n :: IsLeast(n, s)
    decreases s
  {
    var n :| n in s;
    if s == {n} {
      assert IsLeast(n, s);
    } else {
      LeastExists(s - {n});
      var m :| IsLeast(m, s - {n});
      assert forall k :: k in s ==> k == n || k in s - {n};
      assert IsLeast(if n < m then n else m, s);
    }
  }

  ghost function Least(s: set<nat>): (n: nat)
    requires s != {}
    ensures IsLeast(n, s)
  {
    LeastExists(s);
    var n :| IsLeast(n, s);
    n
  }

  class ConcurrentQueue {
    var container: set<SequenceNumber>

    constructor ()
      ensures container == {}
    {
      container := {};
    }

    method Push(elem: SequenceNumber)
      modifies this
      ensures container == old(container) + {elem}
    {
      container := container + {elem};
    }

    /** wait_pop: the least element if there is one when the wait ends, else nothing. */
    method WaitPop() returns (elem: Option<SequenceNumber>)
      modifies this
      ensures old(container) == {} ==> elem == None && container == {}
      ensures old(container) != {} ==>
        elem == Some(Least(old(container))) && container == old(container) - {Least(old(container))}
    {
      if container == {} {
        return None;
      }
      LeastExists(container);
      var front: SequenceNumber :| front in container && forall m :: m in container ==> front <= m;
      container := container - {front};
      elem := Some(front);
    }

    method Empty() returns (r: bool)
      ensures r <==> container == {}
    {
      r := container == {};
    }
  }
}

/** What ConcurrentTimer promises: one deadline map and one set of timed-out events. */
module TimerModel {
  /** How far ahead of its deadline the expiry loop may take an event, in milliseconds. */
  const SLACK: int := 100

  datatype EventState = Unregistered | Normal | TimedOut

  datatype Timer<+E(==)> = Timer(deadlines: map<E, int>, timedOut: set<E>) {
    function Register(event: E, deadline: int): Timer<E> {
      this.(deadlines := deadlines[event := deadline])
    }

    /** Does nothing to an event that is not registered, even one that has timed out. */
    function Remove(event: E): Timer<E> {
      if event in deadlines then Timer(deadlines - {event}, timedOut - {event}) else this
    }

    function Due(cut: int): set<E> {
      set e | e in deadlines && deadlines[e] <= cut
    }

    /** Every event with a deadline up to `cut` times out. */
    function Expire(cut: int): Timer<E> {
      Timer(deadlines - Due(cut), timedOut + Due(cut))
    }

    function Clear(): Timer<E> {
      this.(timedOut := {})
    }

    function Query(event: E): EventState {
      if event in timedOut then TimedOut
      else if event in deadlines then Normal
      else Unregistered
    }
  }
}

/** Histories of timer calls, and which events a clearing map call hands out. */
module TimerHistory {
  import opened TimerModel

  datatype Call<E> =
    | Register(event: E, now: int, timeout: int)
    | Remove(event: E)
    | Expire(now: int)
    | Clear

  function Step<E>(t: Timer<E>, call: Call<E>): Timer<E> {
    match call
    case Register(e, now, timeout) => t.Register(e, now + timeout)
    case Remove(e) => t.Remove(e)
    case Expire(now) => t.Expire(now + SLACK)
    case Clear => t.Clear()
  }

  /** The timer after the first `n` calls of a history that begins with start(). */
  function After<E>(calls: seq<Call<E>>, n: nat): Timer<E>
    requires n <= |calls|
  {
    if n == 0 then Timer(map[], {}) else Step(After(calls, n - 1), calls[n - 1])
  }

  ghost predicate Registers<E>(call: Call<E>, e: E) {
    call.Register? && call.event == e
  }

  ghost predicate Takes<E>(call: Call<E>, deadline: int) {
    call.Expire? && deadline <= call.now + SLACK
  }

  ghost function Deadline<E>(call: Call<E>): int
    requires call.Register?
  {
    call.now + call.timeout
  }

  /** A call that ends a registration of `e` for the given deadline. */
  ghost predicate Ends<E>(call: Call<E>, e: E, deadline: int) {
    Registers(call, e) || call == Remove(e) || Takes(call, deadline)
  }

  /** Call `i` registers `e`, and no later call before `n` registers, removes or expires it. */
  ghost predicate Latest<E>(calls: seq<Call<E>>, e: E, i: nat, n: nat)
    requires n <= |calls|
  {
    && i < n
    && Registers(calls[i], e)
    && forall j | i < j < n :: !Ends(calls[j], e, Deadline(calls[i]))
  }

  /** `e` is registered before call `n`. */
  ghost predicate Registered<E>(calls: seq<Call<E>>, e: E, n: nat)
    requires n <= |calls|
  {
    exists i: nat :: Latest(calls, e, i, n)
  }

  /** Call `i` is an expiry that takes `e`: the latest registration of `e` is due within the slack. */
  ghost predicate ExpiresAt<E>(calls: seq<Call<E>>, e: E, i: nat)
    requires i < |calls|
  {
    exists r: nat :: Latest(calls, e, r, i) && Takes(calls[i], Deadline(calls[r]))
  }

  /** Call `j` takes `e` out of the timed-out set: a clear, or a remove while `e` is registered again. */
  ghost predicate DropsAt<E>(calls: seq<Call<E>>, e: E, j: nat)
    requires j < |calls|
  {
    calls[j] == Clear || (calls[j] == Remove(e) && Registered(calls, e, j))
  }

  /** Call `i` is an expiry that takes `e`, and nothing has dropped `e` since. */
  ghost predicate ExpiredSince<E>(calls: seq<Call<E>>, e: E, i: nat, n: nat)
    requires n <= |calls|
  {
    i < n && ExpiresAt(calls, e, i) && forall j | i < j < n :: !DropsAt(calls, e, j)
  }

  ghost predicate AwaitsHandOut<E>(calls: seq<Call<E>>, e: E, n: nat)
    requires n <= |calls|
  {
    exists i: nat :: ExpiredSince(calls, e, i, n)
  }

  lemma {:induction false} LatestSetsDeadline<E>(calls: seq<Call<E>>, e: E, i: nat, n: nat)
    requires n <= |calls| && Latest(calls, e, i, n)
    ensures e in After(calls, n).deadlines && After(calls, n).deadlines[e] == Deadline(calls[i])
  {
    if i < n - 1 {
      LatestSetsDeadline(calls, e, i, n - 1);
      assert !Ends(calls[n - 1], e, Deadline(calls[i]));
    }
  }

  lemma {:induction false} DeadlineHasLatest<E>(calls: seq<Call<E>>, e: E, n: nat) returns (i: nat)
    requires n <= |calls| && e in After(calls, n).deadlines
    ensures Latest(calls, e, i, n) && After(calls, n).deadlines[e] == Deadline(calls[i])
  {
    if Registers(calls[n - 1], e) {
      i := n - 1;
    } else {
      i := DeadlineHasLatest(calls, e, n - 1);
      assert !Ends(calls[n - 1], e, Deadline(calls[i]));
    }
  }

  /** The deadline map is the latest registrations of the history. */
  lemma DeadlinesAreLatestRegistrations<E>(calls: seq<Call<E>>, e: E, n: nat)
    requires n <= |calls|
    ensures e in After(calls, n).deadlines <==> Registered(calls, e, n)
  {
    if Registered(calls, e, n) {
      var i: nat :| Latest(calls, e, i, n);
      LatestSetsDeadline(calls, e, i, n);
    }
    if e in After(calls, n).deadlines {
      var i := DeadlineHasLatest(calls, e, n);
    }
  }

  lemma ExpiryTakesTheDue<E>(calls: seq<Call<E>>, e: E, i: nat)
    requires i < |calls|
    ensures ExpiresAt(calls, e, i) <==> calls[i].Expire? && e in After(calls, i).Due(calls[i].now + SLACK)
  {
    if ExpiresAt(calls, e, i) {
      var r: nat :| Latest(calls, e, r, i) && Takes(calls[i], Deadline(calls[r]));
      LatestSetsDeadline(calls, e, r, i);
    }
    if calls[i].Expire? && e in After(calls, i).Due(calls[i].now + SLACK) {
      var r := DeadlineHasLatest(calls, e, i);
      assert Takes(calls[i], Deadline(calls[r]));
    }
  }

  lemma OneCall<E>(calls: seq<Call<E>>, e: E, n: nat)
    requires n < |calls|
    ensures e in After(calls, n + 1).timedOut <==>
      ExpiresAt(calls, e, n) || (e in After(calls, n).timedOut && !DropsAt(calls, e, n))
  {
    ExpiryTakesTheDue(calls, e, n);
    DeadlinesAreLatestRegistrations(calls, e, n);
  }

  /** Conservation: a clearing map call made after `n` calls is given `e` exactly when `e` expired since
      the last clear and no remove dropped it while it was registered again. */
  lemma {:induction false} HandOutExact<E>(calls: seq<Call<E>>, e: E, n: nat)
    requires n <= |calls|
    ensures e in After(calls, n).timedOut <==> AwaitsHandOut(calls, e, n)
  {
    if n > 0 {
      HandOutExact(calls, e, n - 1);
      OneCall(calls, e, n - 1);
      AwaitsOneMore(calls, e, n - 1);
    }
  }

  lemma ExpiredOneMore<E>(calls: seq<Call<E>>, e: E, i: nat, n: nat)
    requires n < |calls| && i < n
    ensures ExpiredSince(calls, e, i, n + 1) <==> ExpiredSince(calls, e, i, n) && !DropsAt(calls, e, n)
  {
    if ExpiredSince(calls, e, i, n) && !DropsAt(calls, e, n) {
      forall j | i < j < n + 1
        ensures !DropsAt(calls, e, j)
      {}
    }
  }

  lemma AwaitsOneMore<E>(calls: seq<Call<E>>, e: E, n: nat)
    requires n < |calls|
    ensures AwaitsHandOut(calls, e, n + 1) <==>
      ExpiresAt(calls, e, n) || (AwaitsHandOut(calls, e, n) && !DropsAt(calls, e, n))
  {
    if ExpiresAt(calls, e, n) {
      assert ExpiredSince(calls, e, n, n + 1);
    } else if AwaitsHandOut(calls, e, n) && !DropsAt(calls, e, n) {
      var i: nat :| ExpiredSince(calls, e, i, n);
      ExpiredOneMore(calls, e, i, n);
    } else if AwaitsHandOut(calls, e, n + 1) {
      var i: nat :| ExpiredSince(calls, e, i, n + 1);
      assert i != n;
      ExpiredOneMore(calls, e, i, n);
    }
  }

  /** Accuracy: an expiry takes an event if and only if the event's latest deadline is at most 100 ms
      after the clock reading; every event it leaves registered is due later than that. */
  lemma ExpiryAccuracy<E>(calls: seq<Call<E>>, e: E, i: nat, r: nat)
    requires i < |calls| && calls[i].Expire? && Latest(calls, e, r, i)
    ensures ExpiresAt(calls, e, i) <==> Deadline(calls[r]) <= calls[i].now + 100
    ensures e in After(calls, i + 1).deadlines <==> Deadline(calls[r]) > calls[i].now + 100
  {
    LatestSetsDeadline(calls, e, r, i);
    ExpiryTakesTheDue(calls, e, i);
  }
}

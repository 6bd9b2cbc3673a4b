/** What each branch of the sender's threads does to the sender's fields, one lemma a branch. */
module SenderSteps {
  import opened Options
  import opened Packets
  import opened Settings
  import opened TimerModel
  import opened SenderModel
  import opened System

  // ---- send_handler ----

  /** The pop takes the least pending number and nothing else. */
  lemma PopTakesLeast(c: Config, s: System)
    requires Enabled(c, s, Pop)
    ensures var t := Do(c, s, Pop);
      && t.held.Some? && t.held.value in s.sender.pending
      && (forall n :: n in s.sender.pending ==> t.held.value <= n)
      && t == s.(held := t.held, sender := s.sender.(pending := s.sender.pending - {t.held.value}))
  {}

  /** Clean-up: a held number that is acked or below the window leaves pool, retry counts and, if it is
      registered, both containers of the timer. Every other number stays as it was, and nothing is sent. */
  lemma SettledIsCleanedUp(c: Config, s: System, now: int)
    requires Enabled(c, s, Process(now))
    requires s.held.value < s.sender.lower || (c.selectiveRepeat && s.held.value in s.sender.acked)
    ensures var n, t := s.held.value, Do(c, s, Process(now));
      && n !in t.sender.pool && n !in t.sender.retry && n !in t.sender.timer.deadlines
      && (n in s.sender.timer.deadlines ==> n !in t.sender.timer.timedOut)
      && (n !in s.sender.timer.deadlines ==> t.sender.timer == s.sender.timer)
    ensures var n, t := s.held.value, Do(c, s, Process(now));
      && t.sender.pool == s.sender.pool - {n} && t.sender.retry == s.sender.retry - {n}
      && t.sender.timer.deadlines == s.sender.timer.deadlines - {n}
      && t.sender.timer.timedOut >= s.sender.timer.timedOut - {n}
      && t.sender.timer.timedOut <= s.sender.timer.timedOut
    ensures var t := Do(c, s, Process(now));
      && t.sender == s.sender.(pool := t.sender.pool, retry := t.sender.retry, timer := t.sender.timer)
      && t == s.(sender := t.sender, held := None, clock := now)
  {
    var n, t := s.held.value, Do(c, s, Process(now));
    assert t.data == s.data && t.abandoned == s.abandoned;
    assert n !in s.sender.timer.deadlines ==> s.sender.timer.deadlines - {n} == s.sender.timer.deadlines;
  }

  /** A number that is neither acked nor below the window. */
  predicate Unsettled(c: Config, s: System, n: nat) {
    s.sender.lower <= n && !(c.selectiveRepeat && n in s.sender.acked)
  }

  predicate AtLimit(c: Config, s: System, n: nat) {
    n in s.sender.retry && c.maxRetry <= s.sender.retry[n]
  }

  /** An unsettled number in an empty window is let go. */
  lemma EmptyWindowIgnoresHeld(c: Config, s: System, now: int)
    requires Enabled(c, s, Process(now)) && Unsettled(c, s, s.held.value) && s.sender.lower == s.sender.upper
    ensures Do(c, s, Process(now)) == s.(held := None, clock := now)
  {}

  /** A pooled number below its limit goes on the wire; its count goes up by one, from nothing to 0, and its
      deadline is the timeout from now, in place of an earlier one. */
  lemma PooledIsSentAndTimed(c: Config, s: System, now: int)
    requires Enabled(c, s, Process(now)) && Unsettled(c, s, s.held.value) && s.sender.lower != s.sender.upper
    requires !AtLimit(c, s, s.held.value) && s.held.value in s.sender.pool
    ensures var n, t := s.held.value, Do(c, s, Process(now));
      && t.data == s.data + {s.sender.pool[n]}
      && t.sender.retry == s.sender.retry[n := if n in s.sender.retry then s.sender.retry[n] + 1 else 0]
      && t.sender.timer.deadlines == s.sender.timer.deadlines[n := now + c.timeout]
      && t.sender.timer.timedOut == s.sender.timer.timedOut
      && t.sender == s.sender.(retry := t.sender.retry, timer := t.sender.timer)
      && t == s.(sender := t.sender, held := None, clock := now, data := t.data)
  {
    assert Do(c, s, Process(now)).abandoned == s.abandoned;
  }

  /** A number that is not pooled is counted and untimed, and nothing is sent. */
  lemma UnpooledIsUntimed(c: Config, s: System, now: int)
    requires Enabled(c, s, Process(now)) && Unsettled(c, s, s.held.value) && s.sender.lower != s.sender.upper
    requires !AtLimit(c, s, s.held.value) && s.held.value !in s.sender.pool
    ensures var n, t := s.held.value, Do(c, s, Process(now));
      && t.sender.retry == s.sender.retry[n := if n in s.sender.retry then s.sender.retry[n] + 1 else 0]
      && t.sender.timer.deadlines == s.sender.timer.deadlines - {n}
      && t.sender == s.sender.(retry := t.sender.retry, timer := t.sender.timer)
      && t == s.(sender := t.sender, held := None, clock := now)
  {
    var n, t := s.held.value, Do(c, s, Process(now));
    assert t.data == s.data && t.abandoned == s.abandoned;
    assert n !in s.sender.timer.deadlines ==> s.sender.timer.deadlines - {n} == s.sender.timer.deadlines;
  }

  /** A met limit sends nothing and changes only the state or, in a state that waits for nothing, stops the
      sender. */
  lemma LimitSendsNothing(c: Config, s: System, now: int)
    requires Enabled(c, s, Process(now)) && Unsettled(c, s, s.held.value) && s.sender.lower != s.sender.upper
    requires AtLimit(c, s, s.held.value)
    ensures var t := Do(c, s, Process(now));
      && t.sender == s.sender.(state := t.sender.state, running := t.sender.running)
      && t == s.(sender := t.sender, held := None, clock := now, abandoned := s.abandoned + {s.held.value})
      && t.sender.state ==
        (match s.sender.state
         case Connecting => SenderState.Idle
         case Disconnecting => SenderState.Idle
         case Pushing => SenderState.Connected
         case Stopping => SenderState.Connected
         case _ => s.sender.state)
      && t.sender.running ==
        (s.sender.running && s.sender.state !in {SenderState.Idle, SenderState.Connected, SenderState.Sending})
  {
    assert Do(c, s, Process(now)).data == s.data;
  }

  // ---- recv_handler ----

  /** Go-Back-N, a number above lower: the window begins at that number, and the duplicates are forgotten. */
  lemma CumulativeAckSlides(c: Config, s: System)
    requires Enabled(c, s, Ack) && !c.selectiveRepeat && s.sender.lower < s.listener.ack.number
    ensures var n := s.listener.ack.number;
      Do(c, s, Ack) == s.(listener := Listening,
                          sender := s.sender.(lower := n, dups := 0, acked := s.sender.acked - {n}))
  {}

  /** Go-Back-N, a number below lower: nothing but the acked set, which loses it. */
  lemma OldCumulativeAck(c: Config, s: System)
    requires Enabled(c, s, Ack) && !c.selectiveRepeat && s.listener.ack.number < s.sender.lower
    ensures Do(c, s, Ack) ==
      s.(listener := Listening, sender := s.sender.(acked := s.sender.acked - {s.listener.ack.number}))
  {}

  /** Go-Back-N, the number of lower: only the counter, and with it the pending numbers, can change. */
  lemma DuplicateCumulativeAck(c: Config, s: System)
    requires Enabled(c, s, Ack) && !c.selectiveRepeat && s.listener.ack.number == s.sender.lower
    ensures var t := Do(c, s, Ack);
      && t == s.(listener := Listening, sender := t.sender)
      && t.sender == s.sender.(acked := s.sender.acked - {s.sender.lower},
                               dups := t.sender.dups, pending := t.sender.pending)
      && t.sender.dups == (if s.sender.dups in {0, 2} || s.sender.dups < c.sendWindow then s.sender.dups + 1 else 1)
      && (forall n: nat :: n in t.sender.pending <==>
           n in s.sender.pending
           || (c.fastRetransmit && s.sender.dups == 2 && s.sender.lower <= n < s.sender.upper))
  {}

  lemma {:induction false} SlideExactly(s: Sender)
    ensures var r := SlideLower(s);
      && s.lower <= r.lower && r.lower !in s.acked
      && (forall m: nat :: s.lower <= m < r.lower ==> m in s.acked)
      && (forall m: nat :: m in r.acked <==> m in s.acked && !(s.lower <= m < r.lower))
      && r == s.(lower := r.lower, acked := r.acked)
    decreases |s.acked|
  {
    if s.lower in s.acked {
      SlideExactly(s.(acked := s.acked - {s.lower}, lower := s.lower + 1));
    }
  }

  /** Selective Repeat: the window begins at the first number that is neither acked before nor now, and the
      acked set keeps what is outside the part slid over. */
  lemma SelectiveAckSlides(c: Config, s: System)
    requires Enabled(c, s, Ack) && c.selectiveRepeat
    ensures var n, t := s.listener.ack.number, Do(c, s, Ack);
      && s.sender.lower <= t.sender.lower && t.sender.lower !in s.sender.acked && t.sender.lower != n
      && (forall m: nat :: s.sender.lower <= m < t.sender.lower ==> m in s.sender.acked || m == n)
      && (forall m: nat :: m in t.sender.acked <==>
           (m in s.sender.acked || m == n) && !(s.sender.lower <= m < t.sender.lower))
      && t == s.(listener := Listening, sender := s.sender.(lower := t.sender.lower, acked := t.sender.acked))
  {
    var acked, t := s.sender.acked + {s.listener.ack.number}, Do(c, s, Ack);
    SlideExactly(s.sender.(acked := acked));
    forall m: nat | s.sender.lower <= m < t.sender.lower
      ensures m in s.sender.acked || m == s.listener.ack.number
    {
      assert m in acked;
    }
  }

  // ---- The timer, timeout_handler and send_packet ----

  /** An expiry moves exactly what is due within 100 ms of the last reading, and needs something due at the
      first. */
  lemma FireMovesTheDue(c: Config, s: System, first: int, last: int)
    requires s.clock <= first <= last
    ensures Enabled(c, s, Fire(first, last)) <==>
      exists n :: n in s.sender.timer.deadlines && s.sender.timer.deadlines[n] <= first
    ensures Enabled(c, s, Fire(first, last)) ==>
      var t := Do(c, s, Fire(first, last));
      && (forall n :: n in t.sender.timer.deadlines <==>
           n in s.sender.timer.deadlines && s.sender.timer.deadlines[n] > last + 100)
      && (forall n :: n in t.sender.timer.deadlines ==>
           t.sender.timer.deadlines[n] == s.sender.timer.deadlines[n])
      && (forall n :: n in t.sender.timer.timedOut <==>
           n in s.sender.timer.timedOut
           || (n in s.sender.timer.deadlines && s.sender.timer.deadlines[n] <= last + 100))
      && t == s.(clock := last, sender := s.sender.(timer := t.sender.timer))
  {
    if n :| n in s.sender.timer.deadlines && s.sender.timer.deadlines[n] <= first {
      assert n in s.sender.timer.Due(first);
    }
    if Enabled(c, s, Fire(first, last)) {
      var n :| n in s.sender.timer.Due(first);
      assert n in s.sender.timer.deadlines && s.sender.timer.deadlines[n] <= first;
    }
  }

  /** timeout_handler pends everything that has timed out, and empties the set. */
  lemma RependMovesTimedOut(c: Config, s: System)
    requires Enabled(c, s, Step.Repend)
    ensures Do(c, s, Step.Repend) ==
      s.(sender := s.sender.(pending := s.sender.pending + s.sender.timer.timedOut,
                             timer := Timer(s.sender.timer.deadlines, {})))
  {}

  /** The number read is the one bumped, numbered into the log, pooled and pended. */
  lemma BumpThenInsert(c: Config, s: System)
    requires Enabled(c, s, BumpUpper)
    ensures var stage := s.caller.stage;
      var p := Packet(1, stage.kind, stage.number, stage.payload);
      var t := Do(c, s, BumpUpper);
      && t.sender == s.sender.(upper := s.sender.upper + 1) && t.log == s.log + [p]
      && Enabled(c, t, Insert)
      && var u := Do(c, t, Insert);
        && u.sender.pending == s.sender.pending + {p.number}
        && (p.number !in s.sender.pool ==> u.sender.pool == s.sender.pool[p.number := p])
        && (p.number in s.sender.pool ==> u.sender.pool == s.sender.pool)
        && u.sender == t.sender.(pending := u.sender.pending, pool := u.sender.pool)
        && u.caller == s.caller.(stage := Outside)
        && u.data == s.data && u.receiver == s.receiver
  {}
}

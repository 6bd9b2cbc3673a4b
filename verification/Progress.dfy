/** The protocol can always complete: from every state with retry budget left, even when the network
    has just lost everything, a finite continuation acknowledges every packet. */
module Progress {
  import opened Options
  import opened Packets
  import opened Settings
  import opened TimerModel
  import opened ConcurrentQueues
  import opened SenderModel
  import opened System
  import opened SenderFacts
  import opened ReceiverFacts
  import opened Safety
  import opened Session
  import opened BeforeDisconnect
  import Runs
  import RM = ReceiverModel

  // ---- The hypothesis ----

  predicate Outstanding(c: Config, s: System, n: nat) {
    s.sender.lower <= n < s.sender.upper && !Acked(c, s.sender, n)
  }

  /** send_handler may still send `n` once more; `n` has not met its limit. */
  predicate TryLeft(c: Config, s: System, n: nat) {
    n !in s.abandoned && Counted(s.sender, n) <= c.maxRetry
  }

  ghost predicate TriesLeft(c: Config, s: System) {
    forall n: nat :: Outstanding(c, s, n) ==> TryLeft(c, s, n)
  }

  predicate OnTheWire(s: System, n: nat) {
    n < |s.log| && s.log[n] in s.data
  }

  /** What a run towards completion keeps: an outstanding packet that may not be sent again can still arrive. */
  ghost predicate BudgetLeft(c: Config, s: System) {
    forall n: nat :: Outstanding(c, s, n) ==> n !in s.abandoned && (TryLeft(c, s, n) || OnTheWire(s, n))
  }

  predicate HeldHasTry(c: Config, s: System) {
    s.held.Some? && Outstanding(c, s, s.held.value) ==> TryLeft(c, s, s.held.value)
  }

  /** No thread is in the middle of anything. */
  predicate Parked(s: System) {
    s.held == None && s.listener == Listening && !s.caller.stage.Bumped?
  }

  ghost predicate CanFinish(c: Config, s: System) {
    Safe(c, s) && SenderOk(c, s) && s.sender.running && BudgetLeft(c, s)
  }

  /** The window, the log and the far end are as they were. */
  predicate SameWindow(s: System, t: System) {
    && t.sender.lower == s.sender.lower && t.sender.upper == s.sender.upper && t.sender.acked == s.sender.acked
    && t.log == s.log && t.receiver == s.receiver && t.caller == s.caller
    && t.sender.state == s.sender.state && t.sender.dups == s.sender.dups
    && t.abandoned == s.abandoned && s.data <= t.data
    && t.yielded == s.yielded && t.finished == s.finished && t.misstep == s.misstep
  }

  /** So are the packets in the network, and the counts of what is not acked. */
  ghost predicate SameTries(s: System, t: System) {
    && SameWindow(s, t) && t.data == s.data
    && (forall n: nat :: n >= s.sender.lower ==> Counted(t.sender, n) == Counted(s.sender, n))
  }

  /** The sender's state after it has heard an ack of this kind. */
  function StateAfter(state: SenderState, kind: PacketKind): SenderState {
    match Target(state, kind)
    case Some(target) => target
    case None => state
  }

  lemma OneStep(c: Config, s: System, step: Step)
    requires Enabled(c, s, step)
    ensures CanRun(c, s, [step]) && Run(c, s, [step]) == Do(c, s, step)
  {
    assert [step][1..] == [];
    assert CanRun(c, Do(c, s, step), []);
  }

  lemma TwoSteps(c: Config, s: System, first: Step, second: Step)
    requires Enabled(c, s, first) && Enabled(c, Do(c, s, first), second)
    ensures CanRun(c, s, [first] + [second]) && Run(c, s, [first] + [second]) == Do(c, Do(c, s, first), second)
  {
    OneStep(c, s, first);
    OneStep(c, Do(c, s, first), second);
    RunJoin(c, s, [first], [second]);
  }

  /** The number that comes next is not in use anywhere. */
  lemma NextIsNew(c: Config, s: System)
    requires Safe(c, s) && SenderOk(c, s)
    ensures s.sender.upper !in s.sender.acked && s.sender.upper !in s.sender.retry && s.sender.upper !in s.sender.pool
  {
    assert s.sender.upper in s.sender.acked ==> Holds(s.receiver, s.sender.upper);
  }

  lemma StepKeepsInvariants(c: Config, s: System, step: Step)
    requires c.Valid() && Safe(c, s) && SenderOk(c, s) && Enabled(c, s, step)
    requires step.Deliver? ==> !Missteps(s.receiver, step.packet)
    ensures Safe(c, Do(c, s, step)) && SenderOk(c, Do(c, s, step))
  {
    StepSafe(c, s, step);
    WindowStep(c, s, step);
    NumbersStep(c, s, step);
    PoolStep(c, s, step);
    OrphanStep(c, s, step);
  }

  /** The budget of a number changes only where it is sent. */
  lemma BudgetCarries(c: Config, s: System, t: System)
    requires BudgetLeft(c, s)
    requires t.abandoned == s.abandoned && t.log == s.log && s.data <= t.data
    requires forall n: nat :: Outstanding(c, t, n) ==>
      Outstanding(c, s, n) && (Counted(t.sender, n) <= Counted(s.sender, n) || OnTheWire(t, n))
    ensures BudgetLeft(c, t)
  {}

  lemma SameRetries(c: Config, s: System, t: System)
    requires BudgetLeft(c, s)
    requires t.abandoned == s.abandoned && t.sender.retry == s.sender.retry && t.log == s.log && s.data <= t.data
    requires t.sender.lower >= s.sender.lower && t.sender.upper == s.sender.upper
    requires forall n: nat :: Acked(c, s.sender, n) ==> Acked(c, t.sender, n)
    ensures BudgetLeft(c, t)
  {
    BudgetCarries(c, s, t);
  }

  // ---- Parking the threads ----

  lemma ParkCaller(c: Config, s: System) returns (steps: seq<Step>)
    requires c.Valid() && CanFinish(c, s) && HeldHasTry(c, s)
    ensures CanRun(c, s, steps)
    ensures var t := Run(c, s, steps);
      && CanFinish(c, t) && HeldHasTry(c, t) && !t.caller.stage.Bumped?
      && t.receiver == s.receiver && t.sender.upper == s.sender.upper
  {
    if s.caller.stage.Bumped? {
      steps := [Insert];
      OneStep(c, s, Insert);
      StepKeepsInvariants(c, s, Insert);
      SameRetries(c, s, Do(c, s, Insert));
    } else {
      steps := [];
    }
  }

  lemma ParkSender(c: Config, s: System) returns (steps: seq<Step>)
    requires c.Valid() && CanFinish(c, s) && HeldHasTry(c, s) && !s.caller.stage.Bumped?
    ensures CanRun(c, s, steps)
    ensures var t := Run(c, s, steps);
      && CanFinish(c, t) && !t.caller.stage.Bumped? && t.held == None
      && t.receiver == s.receiver && t.sender.upper == s.sender.upper
  {
    if s.held.Some? {
      steps := [Process(s.clock)];
      OneStep(c, s, steps[0]);
      StepKeepsInvariants(c, s, steps[0]);
      ProcessWithinBudget(c, s, s.clock);
    } else {
      steps := [];
    }
  }

  /** The try in hand puts the held packet on the wire. */
  lemma ProcessWithinBudget(c: Config, s: System, now: int)
    requires CanFinish(c, s) && HeldHasTry(c, s) && !s.caller.stage.Bumped? && Enabled(c, s, Process(now))
    ensures var t := Do(c, s, Process(now));
      t.sender.running && BudgetLeft(c, t) && SameWindow(s, t)
  {
    var n, t := s.held.value, Do(c, s, Process(now));
    ProcessKeepsWindow(c, s.sender, n, now);
    assert Outstanding(c, s, n) || Acked(c, s.sender, n);
    if Outstanding(c, s, n) {
      assert Acked(c, s.sender, n) || n in s.sender.pool || Inserting(s, n);
      TransmissionEffect(c, s, now);
    }
    BudgetCarries(c, s, t);
  }

  lemma ParkListener(c: Config, s: System) returns (steps: seq<Step>)
    requires c.Valid() && CanFinish(c, s) && !s.caller.stage.Bumped? && s.held == None
    ensures CanRun(c, s, steps)
    ensures var t := Run(c, s, steps);
      && CanFinish(c, t) && Parked(t) && s.sender.lower <= t.sender.lower
      && t.receiver == s.receiver && t.sender.upper == s.sender.upper
  {
    match s.listener
    case Listening =>
      steps := [];
    case Acking(_) =>
      steps := [Ack];
      OneStep(c, s, Ack);
      AckWithinBudget(c, s);
    case Deciding(_, _) =>
      var t := Do(c, s, WriteState);
      StepKeepsInvariants(c, s, WriteState);
      SameRetries(c, s, t);
      AckWithinBudget(c, t);
      steps := [WriteState] + [Ack];
      TwoSteps(c, s, WriteState, Ack);
  }

  lemma AckWithinBudget(c: Config, s: System)
    requires c.Valid() && CanFinish(c, s) && Enabled(c, s, Ack)
    ensures var t := Do(c, s, Ack);
      && CanFinish(c, t) && t.listener == Listening && s.sender.lower <= t.sender.lower
      && t.sender.upper == s.sender.upper && t.receiver == s.receiver && t.caller == s.caller && t.held == s.held
  {
    var t := Do(c, s, Ack);
    StepKeepsInvariants(c, s, Ack);
    SlideOnlyForward(c, s.sender, s.listener.ack.number);
    forall n: nat | Acked(c, s.sender, n)
      ensures Acked(c, t.sender, n)
    {
      AckedStays(c, s.sender, s.listener.ack.number, n);
    }
    SameRetries(c, s, t);
  }

  // ---- One round: the lowest outstanding number is sent, delivered and acked ----

  /** Everything outstanding waits in the pending queue. */
  ghost predicate AllPending(c: Config, s: System) {
    forall n: nat :: Outstanding(c, s, n) ==> n in s.sender.pending
  }

  predicate TimerEmpty(s: System) {
    s.sender.timer.deadlines == map[] && s.sender.timer.timedOut == {}
  }

  lemma {:induction false} LatestDeadline(deadlines: map<nat, int>, clock: int) returns (t: int)
    ensures clock <= t && forall n :: n in deadlines ==> deadlines[n] <= t
    decreases |deadlines|
  {
    if deadlines == map[] {
      t := clock;
    } else {
      var n :| n in deadlines;
      var rest := deadlines - {n};
      assert deadlines.Keys == rest.Keys + {n};
      t := LatestDeadline(rest, clock);
      if t < deadlines[n] {
        t := deadlines[n];
      }
      assert forall m :: m in deadlines ==> m == n || m in rest;
    }
  }

  /** Waiting long enough times every registered number out. */
  lemma ExpireAll(c: Config, s: System) returns (steps: seq<Step>)
    requires c.Valid() && CanFinish(c, s) && Parked(s)
    ensures CanRun(c, s, steps)
    ensures var t := Run(c, s, steps);
      && CanFinish(c, t) && Parked(t) && SameTries(s, t)
      && t.sender.timer.deadlines == map[]
  {
    if s.sender.timer.deadlines == map[] {
      steps := [];
    } else {
      var now := LatestDeadline(s.sender.timer.deadlines, s.clock);
      var fire := Fire(now, now);
      var n :| n in s.sender.timer.deadlines;
      assert n in s.sender.timer.Due(now);
      assert s.sender.timer.Due(now + SLACK) == s.sender.timer.deadlines.Keys;
      OneStep(c, s, fire);
      StepKeepsInvariants(c, s, fire);
      SameRetries(c, s, Do(c, s, fire));
      steps := [fire];
    }
  }

  lemma RependAll(c: Config, s: System) returns (steps: seq<Step>)
    requires c.Valid() && CanFinish(c, s) && Parked(s) && s.sender.timer.deadlines == map[]
    ensures CanRun(c, s, steps)
    ensures var t := Run(c, s, steps);
      CanFinish(c, t) && Parked(t) && SameTries(s, t) && AllPending(c, t) && TimerEmpty(t)
  {
    if s.sender.timer.timedOut == {} {
      steps := [];
      EveryoneIsPending(c, s);
    } else {
      steps := [Repend];
      var t := Do(c, s, Repend);
      OneStep(c, s, Repend);
      StepKeepsInvariants(c, s, Repend);
      SameRetries(c, s, t);
      EveryoneIsPending(c, t);
    }
  }

  /** Nobody is orphaned, so with empty hands and an empty timer everybody is in the queue. */
  lemma EveryoneIsPending(c: Config, s: System)
    requires CanFinish(c, s) && Parked(s)
    requires TimerEmpty(s)
    ensures AllPending(c, s)
  {
    forall n: nat | Outstanding(c, s, n)
      ensures n in s.sender.pending
    {
      assert LookedAfter(s, n);
    }
  }

  /** send_handler pops and cleans up what is below the window, until the lower bound is in front. */
  lemma {:induction false} CleanStale(c: Config, s: System) returns (steps: seq<Step>)
    requires c.Valid() && CanFinish(c, s) && Parked(s) && AllPending(c, s) && s.sender.lower < s.sender.upper
    requires TimerEmpty(s)
    ensures CanRun(c, s, steps)
    ensures var t := Run(c, s, steps);
      && CanFinish(c, t) && Parked(t) && SameTries(s, t) && AllPending(c, t) && TimerEmpty(t)
      && t.sender.pending != {} && Least(t.sender.pending) == t.sender.lower
    decreases |s.sender.pending|
  {
    assert Outstanding(c, s, s.sender.lower);
    var n := Least(s.sender.pending);
    if n == s.sender.lower {
      steps := [];
    } else {
      var process := Process(s.clock);
      PopStale(c, s);
      var t := Do(c, Do(c, s, Pop), process);
      TwoSteps(c, s, Pop, process);
      var rest := CleanStale(c, t);
      RunJoin(c, s, [Pop] + [process], rest);
      steps := [Pop] + [process] + rest;
    }
  }

  lemma PopKeeps(c: Config, s: System)
    requires c.Valid() && CanFinish(c, s) && Parked(s) && Enabled(c, s, Pop)
    ensures var t := Do(c, s, Pop);
      && Safe(c, t) && SenderOk(c, t) && t.sender.running && SameTries(s, t)
      && t.held == Some(Least(s.sender.pending)) && t.sender.retry == s.sender.retry && t.abandoned == s.abandoned
      && t.sender == s.sender.(pending := s.sender.pending - {Least(s.sender.pending)})
      && t.listener == s.listener
      && t.clock == s.clock
  {
    StepKeepsInvariants(c, s, Pop);
  }

  lemma CleanedUp(c: Config, s: System, popped: System, n: nat, now: int)
    requires Enabled(c, popped, Process(now)) && popped.held == Some(n) && n < popped.sender.lower
    requires popped.sender == s.sender.(pending := s.sender.pending - {n})
    requires SameTries(s, popped) && s.held == None && TimerEmpty(s)
    requires BudgetLeft(c, s)
    ensures var t := Do(c, popped, Process(now));
      && t.sender.pending == s.sender.pending - {n} && TimerEmpty(t) && t.sender.running == s.sender.running
      && t.listener == popped.listener && SameTries(s, t)
      && t.held == None
      && BudgetLeft(c, t)
  {
    var t := Do(c, popped, Process(now));
    assert t.sender == CleanUp(popped.sender, n);
    BudgetCarries(c, s, t);
  }

  lemma PopStale(c: Config, s: System)
    requires c.Valid() && CanFinish(c, s) && Parked(s) && AllPending(c, s)
    requires s.sender.pending != {} && Least(s.sender.pending) < s.sender.lower < s.sender.upper
    requires TimerEmpty(s)
    ensures Enabled(c, Do(c, s, Pop), Process(s.clock))
    ensures var t := Do(c, Do(c, s, Pop), Process(s.clock));
      && CanFinish(c, t) && Parked(t) && SameTries(s, t) && AllPending(c, t) && TimerEmpty(t)
      && |t.sender.pending| < |s.sender.pending|
  {
    var n, popped := Least(s.sender.pending), Do(c, s, Pop);
    PopKeeps(c, s);
    StepKeepsInvariants(c, popped, Process(s.clock));
    CleanedUp(c, s, popped, n, s.clock);
    FewerPending(s.sender.pending, n);
    StillPending(c, s, Do(c, popped, Process(s.clock)), n);
  }

  lemma FewerPending(pending: set<nat>, n: nat)
    requires n in pending
    ensures |pending - {n}| < |pending|
  {
    assert pending == (pending - {n}) + {n};
  }

  lemma StillPending(c: Config, s: System, t: System, n: nat)
    requires AllPending(c, s) && SameTries(s, t) && n < s.sender.lower
    requires t.sender.pending == s.sender.pending - {n}
    ensures AllPending(c, t)
  {
    forall m: nat | Outstanding(c, t, m)
      ensures m in t.sender.pending
    {
      assert Outstanding(c, s, m);
    }
  }

  /** The state in which the lowest number has just been put on the wire. */
  ghost predicate LowestSent(c: Config, s: System) {
    && Safe(c, s) && SenderOk(c, s) && s.sender.running && Parked(s)
    && s.sender.lower < s.sender.upper && s.log[s.sender.lower] in s.data
    && OthersHaveBudget(c, s)
  }

  /** The lowest number has left the queue for the timer, which held nothing. */
  predicate OnlyLowestTimed(s: System) {
    && s.sender.timer.deadlines.Keys == {s.sender.lower} && s.sender.timer.timedOut == {}
    && s.sender.lower in s.sender.retry
    && (forall n :: n in s.sender.pending ==> s.sender.lower < n < s.sender.upper)
  }

  lemma PopLowest(c: Config, s: System) returns (popped: System)
    requires c.Valid() && CanFinish(c, s) && Parked(s) && s.sender.lower < s.sender.upper
    requires s.sender.pending != {} && Least(s.sender.pending) == s.sender.lower
    requires TryLeft(c, s, s.sender.lower)
    ensures Enabled(c, s, Pop) && popped == Do(c, s, Pop)
    ensures Enabled(c, popped, Process(s.clock)) && popped.held == Some(s.sender.lower)
    ensures popped.sender == s.sender.(pending := s.sender.pending - {s.sender.lower})
    ensures SameWindow(s, popped) && popped.listener == s.listener
    ensures Transmits(c, popped.sender, s.sender.lower)
    ensures popped.sender.pool[s.sender.lower] == s.log[s.sender.lower]
    ensures var t := Do(c, popped, Process(s.clock)); Safe(c, t) && SenderOk(c, t)
  {
    popped := Do(c, s, Pop);
    PopKeeps(c, s);
    TransmitsLowest(c, s, popped);
    StepKeepsInvariants(c, popped, Process(s.clock));
  }

  lemma SendLowest(c: Config, s: System) returns (steps: seq<Step>)
    requires c.Valid() && CanFinish(c, s) && Parked(s) && s.sender.lower < s.sender.upper
    requires s.sender.pending != {} && Least(s.sender.pending) == s.sender.lower && TimerEmpty(s)
    requires TryLeft(c, s, s.sender.lower)
    ensures CanRun(c, s, steps)
    ensures LowestSent(c, Run(c, s, steps)) && SameWindow(s, Run(c, s, steps))
    ensures OnlyLowestTimed(Run(c, s, steps))
  {
    var popped := PopLowest(c, s);
    var process := Process(s.clock);
    TwoSteps(c, s, Pop, process);
    steps := [Pop] + [process];
    SentLowest(c, s, popped);
  }

  lemma SentLowest(c: Config, s: System, popped: System)
    requires CanFinish(c, s) && Parked(s) && s.sender.lower < s.sender.upper && TimerEmpty(s)
    requires IsLeast(s.sender.lower, s.sender.pending)
    requires Enabled(c, popped, Process(s.clock)) && popped.held == Some(s.sender.lower)
    requires popped.sender == s.sender.(pending := s.sender.pending - {s.sender.lower})
    requires SameWindow(s, popped) && popped.listener == s.listener
    requires Transmits(c, popped.sender, s.sender.lower)
    requires popped.sender.pool[s.sender.lower] == s.log[s.sender.lower]
    requires var t := Do(c, popped, Process(s.clock)); Safe(c, t) && SenderOk(c, t)
    ensures var t := Do(c, popped, Process(s.clock));
      LowestSent(c, t) && SameWindow(s, t) && OnlyLowestTimed(t)
  {
    var n, t := s.sender.lower, Do(c, popped, Process(s.clock));
    TransmissionEffect(c, popped, s.clock);
    assert t.sender == CountTry(popped.sender, n).(timer := s.sender.timer.Register(n, s.clock + c.timeout));
    TimedLowest(s, t.sender, s.clock + c.timeout);
    OnlyOneCounted(popped.sender, n);
    assert forall m: nat :: Counted(popped.sender, m) == Counted(s.sender, m);
    OthersKeepBudget(c, s, t);
  }

  lemma TimedLowest(s: System, sent: Sender, deadline: int)
    requires SenderFacts.NumbersKnown(s) && TimerEmpty(s) && IsLeast(s.sender.lower, s.sender.pending)
    requires sent.lower == s.sender.lower && sent.upper == s.sender.upper
    requires sent.pending == s.sender.pending - {s.sender.lower}
    requires sent.retry == CountTry(s.sender, s.sender.lower).retry
    requires sent.timer == s.sender.timer.Register(s.sender.lower, deadline)
    ensures OnlyLowestTimed(s.(sender := sent))
  {
    assert sent.timer.deadlines == map[s.sender.lower := deadline];
  }

  lemma OnlyOneCounted(s: Sender, m: nat)
    ensures forall n: nat :: n != m ==> Counted(CountTry(s, m), n) == Counted(s, n)
  {}

  /** The numbers other than the lowest one may still be sent once more. */
  ghost predicate OthersHaveBudget(c: Config, s: System) {
    forall n: nat :: Outstanding(c, s, n) && n != s.sender.lower ==>
      n !in s.abandoned && (TryLeft(c, s, n) || OnTheWire(s, n))
  }

  lemma OthersKeepBudget(c: Config, s: System, t: System)
    requires BudgetLeft(c, s) && SameWindow(s, t)
    requires forall n: nat :: n != s.sender.lower ==> Counted(t.sender, n) == Counted(s.sender, n)
    ensures OthersHaveBudget(c, t)
  {
    forall n: nat | Outstanding(c, t, n) && n != t.sender.lower
      ensures n !in t.abandoned && (TryLeft(c, t, n) || OnTheWire(t, n))
    {
      assert Outstanding(c, s, n);
    }
  }

  lemma TransmissionEffect(c: Config, s: System, now: int)
    requires Enabled(c, s, Process(now)) && Transmits(c, s.sender, s.held.value)
    ensures var n, t := s.held.value, Do(c, s, Process(now));
      && t.sender == CountTry(s.sender, n).(timer := s.sender.timer.Register(n, now + c.timeout))
      && t == s.(sender := t.sender, held := None, clock := now, data := s.data + {s.sender.pool[n]})
  {}

  lemma TransmitsLowest(c: Config, s: System, popped: System)
    requires c.Valid() && CanFinish(c, s) && Parked(s) && s.sender.lower < s.sender.upper
    requires Safe(c, popped) && SenderOk(c, popped) && SameWindow(s, popped)
    requires popped.held == Some(s.sender.lower) && popped.sender.retry == s.sender.retry
    requires TryLeft(c, s, s.sender.lower)
    ensures Transmits(c, popped.sender, s.sender.lower)
    ensures popped.sender.pool[s.sender.lower] == s.log[s.sender.lower]
  {
    var n := s.sender.lower;
    assert Outstanding(c, s, n);
    assert Acked(c, popped.sender, n) || n in popped.sender.pool || Inserting(popped, n);
  }

  /** A receiver that is open writes the packet, or has written it before; it answers either way. */
  lemma DeliveredIsAcked(c: Config, r: RM.Receiver, p: Packet, log: seq<Packet>)
    requires c.Valid() && LogOk(log) && ReceiverOk(c, r, log) && InLog(log, p)
    requires r.first == 0 ==> |log| <= 1
    requires Open(r) && p.number <= r.first
    ensures !Missteps(r, p)
    ensures var reply := RM.Receive(c, r, p);
      && reply.receiver.first > p.number
      && reply.ack.Some? && reply.ack.value.number == (if c.selectiveRepeat then p.number else reply.receiver.first)
      && (Open(reply.receiver) || p.number + 1 == |log|)
  {
    DeliveredIsTaken(c, r, p, log);
    assert p.kind == DisconnReq ==> log[p.number].kind == DisconnReq && p.number == |log| - 1;
    if !RM.IsOld(r, p) {
      AcceptKeeps(c, r, p, log);
      SlidKeeps(c, r, p, log);
    }
  }

  /** The state in which the receiver has answered the lowest number. */
  ghost predicate LowestAnswered(c: Config, s: System, ack: Packet) {
    && Safe(c, s) && SenderOk(c, s) && s.sender.running && Parked(s)
    && ack in s.acks && ack.number == (if c.selectiveRepeat then s.sender.lower else s.receiver.first)
    && s.sender.lower < s.sender.upper && s.receiver.first > s.sender.lower
    && (Open(s.receiver) || s.sender.lower + 1 == s.sender.upper)
    && OthersHaveBudget(c, s)
  }

  lemma OthersKeepBudgetAcross(c: Config, s: System, t: System)
    requires OthersHaveBudget(c, s) && t.sender == s.sender && t.abandoned == s.abandoned
    requires t.log == s.log && s.data <= t.data
    ensures OthersHaveBudget(c, t)
  {
    forall n: nat | Outstanding(c, t, n) && n != t.sender.lower
      ensures n !in t.abandoned && (TryLeft(c, t, n) || OnTheWire(t, n))
    {
      assert Outstanding(c, s, n);
    }
  }

  lemma DeliverLowest(c: Config, s: System) returns (steps: seq<Step>, ack: Packet)
    requires c.Valid() && LowestSent(c, s) && Open(s.receiver)
    ensures CanRun(c, s, steps)
    ensures LowestAnswered(c, Run(c, s, steps), ack)
    ensures var p := s.log[s.sender.lower];
      && IsRequest(p.kind) && Some(ack.kind) == GetAckKind(p.kind)
      && Run(c, s, steps) == Do(c, s, Deliver(p))
  {
    var p := s.log[s.sender.lower];
    var deliver := Deliver(p);
    DeliveredIsAcked(c, s.receiver, p, s.log);
    AckKindMatches(c, s.receiver, p);
    ack := RM.Receive(c, s.receiver, p).ack.value;
    OneStep(c, s, deliver);
    StepKeepsInvariants(c, s, deliver);
    DeliveryTouchesNoSender(c, s, p);
    steps := [deliver];
    OthersKeepBudgetAcross(c, s, Do(c, s, deliver));
  }

  /** Nothing outside the sender's window and state has changed. */
  predicate OnlySlid(s: System, t: System) {
    && t.log == s.log && t.receiver == s.receiver && t.caller == s.caller && t.data == s.data
    && t.abandoned == s.abandoned && t.yielded == s.yielded && t.finished == s.finished && t.misstep == s.misstep
  }

  lemma HearThenWrite(c: Config, s: System, ack: Packet)
    requires Enabled(c, s, Hear(ack)) && Target(s.sender.state, ack.kind).Some?
    ensures Enabled(c, Do(c, s, Hear(ack)), WriteState)
    ensures Do(c, Do(c, s, Hear(ack)), WriteState) ==
      s.(listener := Acking(ack), sender := s.sender.(state := StateAfter(s.sender.state, ack.kind)))
  {}

  /** The sender hears the answer and writes its state if the kind asks for it. */
  lemma HearAnswer(c: Config, s: System, ack: Packet) returns (steps: seq<Step>, acking: System)
    requires c.Valid() && Safe(c, s) && SenderOk(c, s) && s.sender.running && s.listener == Listening && ack in s.acks
    ensures CanRun(c, s, steps) && Run(c, s, steps) == acking
    ensures Safe(c, acking) && SenderOk(c, acking)
    ensures acking == s.(listener := Acking(ack), sender := s.sender.(state := StateAfter(s.sender.state, ack.kind)))
  {
    var hear := Hear(ack);
    StepKeepsInvariants(c, s, hear);
    if Target(s.sender.state, ack.kind).Some? {
      HearThenWrite(c, s, ack);
      StepKeepsInvariants(c, Do(c, s, hear), WriteState);
      TwoSteps(c, s, hear, WriteState);
      steps, acking := [hear] + [WriteState], Do(c, Do(c, s, hear), WriteState);
    } else {
      OneStep(c, s, hear);
      steps, acking := [hear], Do(c, s, hear);
    }
  }

  lemma AckLowest(c: Config, s: System, ack: Packet) returns (steps: seq<Step>)
    requires c.Valid() && LowestAnswered(c, s, ack)
    ensures CanRun(c, s, steps)
    ensures var t := Run(c, s, steps);
      && CanFinish(c, t) && Parked(t) && (Open(t.receiver) || t.sender.lower == t.sender.upper)
      && t.sender.lower > s.sender.lower && t.sender.upper == s.sender.upper
      && OnlySlid(s, t) && t.sender.state == StateAfter(s.sender.state, ack.kind)
      && (!c.selectiveRepeat ==> t.sender.dups == 0)
  {
    var hear, acking := HearAnswer(c, s, ack);
    SlidePastLowest(c, s, acking, ack);
    OneStep(c, acking, Ack);
    RunJoin(c, s, hear, [Ack]);
    steps := hear + [Ack];
  }

  lemma SlidePastLowest(c: Config, s: System, acking: System, ack: Packet)
    requires c.Valid() && LowestAnswered(c, s, ack)
    requires Safe(c, acking) && SenderOk(c, acking)
    requires acking == s.(listener := Acking(ack), sender := s.sender.(state := acking.sender.state))
    ensures var t := Do(c, acking, Ack);
      && CanFinish(c, t) && Parked(t) && (Open(t.receiver) || t.sender.lower == t.sender.upper)
      && t.sender.lower > s.sender.lower && t.sender.upper == s.sender.upper
      && OnlySlid(s, t) && t.sender.state == acking.sender.state
      && (!c.selectiveRepeat ==> t.sender.dups == 0)
  {
    var t := Do(c, acking, Ack);
    StepKeepsInvariants(c, acking, Ack);
    SlideOnlyForward(c, acking.sender, ack.number);
    assert t.sender.lower > s.sender.lower;
    forall n: nat | Outstanding(c, t, n)
      ensures n !in t.abandoned && (TryLeft(c, t, n) || OnTheWire(t, n))
    {
      if Acked(c, acking.sender, n) {
        AckedStays(c, acking.sender, ack.number, n);
      }
      assert Outstanding(c, s, n);
    }
  }

  /** From `s` to `t` the packet at the lower bound was sent, delivered and acked. */
  ghost predicate Exchanged(c: Config, s: System, t: System)
    requires s.sender.lower < |s.log| && IsRequest(s.log[s.sender.lower].kind)
  {
    var p := s.log[s.sender.lower];
    var reply := RM.Receive(c, s.receiver, p);
    && t.caller == s.caller && t.log == s.log && t.abandoned == s.abandoned
    && s.data + {p} <= t.data
    && t.receiver == reply.receiver
    && t.yielded == (if reply.event == Some(true) then s.yielded + [reply.receiver.out] else s.yielded)
    && t.finished == (s.finished || reply.event == Some(false))
    && t.misstep == (s.misstep || Missteps(s.receiver, p))
    && (!c.selectiveRepeat ==> t.sender.dups == 0)
    && t.sender.state == StateAfter(s.sender.state, GetAckKind(p.kind).value)
  }

  lemma QueueingPart(c: Config, s: System) returns (steps: seq<Step>)
    requires c.Valid() && CanFinish(c, s) && Parked(s) && s.sender.lower < s.sender.upper
    ensures CanRun(c, s, steps)
    ensures var t := Run(c, s, steps);
      && CanFinish(c, t) && Parked(t) && SameTries(s, t) && TimerEmpty(t)
      && t.sender.pending != {} && Least(t.sender.pending) == s.sender.lower
  {
    var expire := ExpireAll(c, s);
    var s1 := Run(c, s, expire);
    var repend := RependAll(c, s1);
    var s2 := Run(c, s1, repend);
    var clean := CleanStale(c, s2);
    RunJoin(c, s1, repend, clean);
    RunJoin(c, s, expire, repend + clean);
    steps := expire + (repend + clean);
  }

  lemma SendingPart(c: Config, s: System) returns (steps: seq<Step>)
    requires c.Valid() && CanFinish(c, s) && Parked(s) && s.sender.lower < s.sender.upper
    requires TryLeft(c, s, s.sender.lower)
    ensures CanRun(c, s, steps)
    ensures var t := Run(c, s, steps);
      LowestSent(c, t) && SameWindow(s, t) && OnlyLowestTimed(t)
  {
    var queue := QueueingPart(c, s);
    var queued := Run(c, s, queue);
    var send := SendLowest(c, queued);
    RunJoin(c, s, queue, send);
    steps := queue + send;
  }

  lemma AnswerPart(c: Config, s: System) returns (steps: seq<Step>)
    requires c.Valid() && LowestSent(c, s) && Open(s.receiver)
    ensures CanRun(c, s, steps)
    ensures var t := Run(c, s, steps);
      && CanFinish(c, t) && Parked(t) && (Open(t.receiver) || t.sender.lower == t.sender.upper)
      && t.sender.lower > s.sender.lower && t.sender.upper == s.sender.upper
    ensures Exchanged(c, s, Run(c, s, steps))
  {
    var deliver, ack := DeliverLowest(c, s);
    var delivered := Run(c, s, deliver);
    DeliveryTouchesNoSender(c, s, s.log[s.sender.lower]);
    var slide := AckLowest(c, delivered, ack);
    RunJoin(c, s, deliver, slide);
    steps := deliver + slide;
  }

  lemma Round(c: Config, s: System) returns (steps: seq<Step>)
    requires c.Valid() && CanFinish(c, s) && Parked(s) && Open(s.receiver) && s.sender.lower < s.sender.upper
    ensures CanRun(c, s, steps)
    ensures var t := Run(c, s, steps);
      && CanFinish(c, t) && Parked(t) && (Open(t.receiver) || t.sender.lower == t.sender.upper)
      && t.sender.lower > s.sender.lower && t.sender.upper == s.sender.upper
    ensures Exchanged(c, s, Run(c, s, steps))
  {
    if OnTheWire(s, s.sender.lower) {
      steps := AnswerPart(c, s);
    } else {
      assert Outstanding(c, s, s.sender.lower);
      var send := SendingPart(c, s);
      var answer := AnswerPart(c, Run(c, s, send));
      RunJoin(c, s, send, answer);
      steps := send + answer;
    }
  }

  // ---- A packet that times out ----

  /** A single number that the timer holds goes back into the queue. */
  lemma TimeOutLowest(c: Config, s: System) returns (fire: Step, repend: Step, t: System)
    requires c.Valid() && Safe(c, s) && SenderOk(c, s) && s.sender.running && Parked(s)
    requires s.sender.lower + 1 == s.sender.upper && OnlyLowestTimed(s)
    ensures CanRun(c, s, [fire] + [repend]) && Run(c, s, [fire] + [repend]) == t
    ensures Safe(c, t) && SenderOk(c, t)
    ensures t.sender == s.sender.(pending := {s.sender.lower}, timer := t.sender.timer)
    ensures t == s.(sender := t.sender, clock := t.clock)
  {
    var n := s.sender.lower;
    var now := LatestDeadline(s.sender.timer.deadlines, s.clock);
    fire, repend := Fire(now, now), Repend;
    assert n in s.sender.timer.deadlines && n in s.sender.timer.Due(now);
    assert s.sender.timer.Due(now + SLACK) == {n};
    var fired := Do(c, s, fire);
    StepKeepsInvariants(c, s, fire);
    StepKeepsInvariants(c, fired, Repend);
    TwoSteps(c, s, fire, Repend);
    t := Do(c, fired, Repend);
    assert s.sender.pending == {};
  }

  lemma PopOnly(c: Config, s: System, n: nat) returns (popped: System)
    requires c.Valid() && Safe(c, s) && SenderOk(c, s) && s.sender.running && Parked(s)
    requires s.sender.pending == {n}
    ensures Enabled(c, s, Pop) && popped == Do(c, s, Pop)
    ensures popped == s.(sender := s.sender.(pending := {}), held := Some(n))
    ensures Safe(c, popped) && SenderOk(c, popped)
  {
    assert IsLeast(Least({n}), {n});
    assert s.sender.pending - {n} == {};
    popped := Do(c, s, Pop);
    StepKeepsInvariants(c, s, Pop);
  }

  // ---- All rounds ----

  lemma {:induction false} Rounds(c: Config, s: System) returns (steps: seq<Step>)
    requires c.Valid() && CanFinish(c, s) && Parked(s) && (Open(s.receiver) || s.sender.lower == s.sender.upper)
    ensures CanRun(c, s, steps)
    ensures Run(c, s, steps).sender.lower == Run(c, s, steps).sender.upper == s.sender.upper
    decreases s.sender.upper - s.sender.lower
  {
    if s.sender.lower == s.sender.upper {
      steps := [];
    } else {
      var round := Round(c, s);
      var rest := Rounds(c, Run(c, s, round));
      RunJoin(c, s, round, rest);
      steps := round + rest;
    }
  }

  lemma Park(c: Config, s: System) returns (steps: seq<Step>)
    requires c.Valid() && CanFinish(c, s) && HeldHasTry(c, s)
    ensures CanRun(c, s, steps)
    ensures var t := Run(c, s, steps);
      CanFinish(c, t) && Parked(t) && t.receiver == s.receiver && t.sender.upper == s.sender.upper
  {
    var caller := ParkCaller(c, s);
    var s1 := Run(c, s, caller);
    var sender := ParkSender(c, s1);
    var s2 := Run(c, s1, sender);
    var listener := ParkListener(c, s2);
    RunJoin(c, s1, sender, listener);
    RunJoin(c, s, caller, sender + listener);
    steps := caller + (sender + listener);
  }

  lemma LoseAll(c: Config, s: System)
    requires c.Valid() && Safe(c, s) && SenderOk(c, s) && s.sender.running && TriesLeft(c, s)
    ensures Enabled(c, s, Lose(s.data, s.acks))
    ensures var t := Do(c, s, Lose(s.data, s.acks));
      CanFinish(c, t) && HeldHasTry(c, t) && t.receiver == s.receiver && t.sender == s.sender
  {
    var t := Do(c, s, Lose(s.data, s.acks));
    StepKeepsInvariants(c, s, Lose(s.data, s.acks));
    assert forall n: nat :: Outstanding(c, t, n) ==> Outstanding(c, s, n);
  }

  /** From every reachable state in which the sender runs, every outstanding packet has a try left and the
      receiver has not ended its session, some finite continuation acknowledges everything numbered. It
      begins with the loss of everything in flight, so it uses no packet and no ack sent before. */
  lemma CanAlwaysComplete(c: Config, s: System) returns (steps: seq<Step>)
    requires c.Valid() && Reachable(c, s) && !s.misstep
    requires s.sender.running && TriesLeft(c, s) && Open(s.receiver)
    ensures CanRun(c, s, steps) && |steps| > 0 && steps[0] == Lose(s.data, s.acks)
    ensures Run(c, s, steps).sender.lower == Run(c, s, steps).sender.upper == s.sender.upper
  {
    Runs.ReachableSafe(c, s);
    ReachableSenderOk(c, s);
    var lose := Lose(s.data, s.acks);
    var lost := Do(c, s, lose);
    LoseAll(c, s);
    OneStep(c, s, lose);
    var park := Park(c, lost);
    var rounds := Rounds(c, Run(c, lost, park));
    RunJoin(c, lost, park, rounds);
    RunJoin(c, s, [lose], park + rounds);
    steps := [lose] + (park + rounds);
  }

  /** The same before disconnect has numbered its DisconnReq, from what the sender alone can see. */
  lemma CanCompleteBeforeDisconnect(c: Config, s: System) returns (steps: seq<Step>)
    requires c.Valid() && Reachable(c, s) && !HasDisconnect(s.log)
    requires s.sender.running && TriesLeft(c, s)
    ensures CanRun(c, s, steps) && |steps| > 0 && steps[0] == Lose(s.data, s.acks)
    ensures Run(c, s, steps).sender.lower == Run(c, s, steps).sender.upper == s.sender.upper
  {
    OpenBeforeDisconnect(c, s);
    steps := CanAlwaysComplete(c, s);
  }
}

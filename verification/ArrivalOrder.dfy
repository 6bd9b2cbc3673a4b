/** Exactly when a packet reaches the receiver in order, after any number of sends and any retry limits; and
    what that means for DisconnReq. */
module ArrivalOrder {
  import opened Options
  import opened Packets
  import opened Settings
  import opened ConcurrentQueues
  import opened SenderModel
  import opened System
  import opened SenderFacts
  import opened ReceiverFacts
  import opened Safety
  import opened Session
  import opened Runs
  import opened Refinement
  import opened FileTransfer
  import opened BeforeDisconnect
  import opened Progress
  import opened Transfers

  /** The network cannot deliver packet `u` before the receiver expects it. */
  ghost predicate NotEarly(s: System, u: nat) {
    forall p :: p in s.data && p.number == u ==> u <= s.receiver.first
  }

  /** Packet `u` is not early in any continuation, as long as there is no misstep. */
  ghost predicate AlwaysInOrder(c: Config, s: System, u: nat) {
    forall steps :: CanRun(c, s, steps) && !Run(c, s, steps).misstep ==> NotEarly(Run(c, s, steps), u)
  }

  // ---- The receiver has written everything below the packet ----

  lemma {:induction false} ExpectedStays(c: Config, s: System, steps: seq<Step>)
    requires c.Valid() && Safe(c, s) && CanRun(c, s, steps) && !Run(c, s, steps).misstep
    ensures s.receiver.first <= Run(c, s, steps).receiver.first
    decreases |steps|
  {
    if |steps| > 0 {
      var next := Do(c, s, steps[0]);
      if next.misstep {
        RunMisstepStays(c, next, steps[1..]);
      } else {
        StepEffect(c, s, steps[0]);
        StepWithoutMisstep(c, s, steps[0]);
        StepSafe(c, s, steps[0]);
        ExpectedStays(c, next, steps[1..]);
      }
    }
  }

  // ---- The sender has stopped ----

  /** send_handler has stopped, and `u` is neither in its hand nor in the network. */
  ghost predicate Unsendable(s: System, u: nat) {
    !s.sender.running && s.held != Some(u) && forall p :: p in s.data ==> p.number != u
  }

  lemma StaysUnsendable(c: Config, s: System, step: Step, u: nat)
    requires LogOk(s.log) && PacketsOk(s) && Unsendable(s, u) && Enabled(c, s, step)
    ensures Unsendable(Do(c, s, step), u)
  {
    NothingPopped(c, s, step);
    NothingNewSent(c, s, step, u);
  }

  lemma NothingPopped(c: Config, s: System, step: Step)
    requires Enabled(c, s, step) && !s.sender.running
    ensures !Do(c, s, step).sender.running
    ensures Do(c, s, step).held.Some? ==> Do(c, s, step).held == s.held
  {
    if step.Ack? {
      SlideOnlyForward(c, s.sender, s.listener.ack.number);
    } else if step.Deliver? {
      DeliveryTouchesNoSender(c, s, step.packet);
    }
  }

  lemma NothingNewSent(c: Config, s: System, step: Step, u: nat)
    requires LogOk(s.log) && PacketsOk(s) && Unsendable(s, u) && Enabled(c, s, step)
    ensures forall p :: p in Do(c, s, step).data ==> p.number != u
  {
    if step.Deliver? {
      DeliveryTouchesNoSender(c, s, step.packet);
    }
  }

  lemma {:induction false} UnsendableRun(c: Config, s: System, steps: seq<Step>, u: nat)
    requires c.Valid() && Safe(c, s) && Unsendable(s, u)
    requires CanRun(c, s, steps) && !Run(c, s, steps).misstep
    ensures NotEarly(Run(c, s, steps), u)
    decreases |steps|
  {
    if |steps| > 0 {
      var next := Do(c, s, steps[0]);
      if next.misstep {
        RunMisstepStays(c, next, steps[1..]);
      } else {
        StepWithoutMisstep(c, s, steps[0]);
        StepSafe(c, s, steps[0]);
        StaysUnsendable(c, s, steps[0], u);
        UnsendableRun(c, next, steps[1..], u);
      }
    }
  }

  /** One half needs nothing of the queue: a packet that is numbered when the receiver has written everything,
      or after the sender has stopped, is never early. */
  lemma FlushedOrStoppedIsInOrder(c: Config, s: System)
    requires c.Valid() && Reachable(c, s) && Enabled(c, s, BumpUpper)
    requires s.receiver.first == |s.log| || !s.sender.running
    ensures AlwaysInOrder(c, Do(c, s, BumpUpper), |s.log|)
  {
    var numbered, u := Do(c, s, BumpUpper), |s.log|;
    NumberingIsBeforeDisconnect(c, s);
    ReachableSenderOk(c, s);
    StepSafe(c, s, BumpUpper);
    forall steps | CanRun(c, numbered, steps) && !Run(c, numbered, steps).misstep
      ensures NotEarly(Run(c, numbered, steps), u)
    {
      if s.receiver.first == |s.log| {
        ExpectedStays(c, numbered, steps);
      } else {
        assert forall p :: p in s.data ==> p.number < u;
        assert Unsendable(numbered, u);
        UnsendableRun(c, numbered, steps, u);
      }
    }
  }

  // ---- The failure: a packet overtakes what is outstanding ----

  /** How many times send_handler will take `n` before it waits again. */
  function Takes(s: System, n: nat): nat {
    (if n in s.sender.pending then 1 else 0) + (if s.held == Some(n) then 1 else 0)
  }

  /** send_handler can take `n` as often as it is about to without meeting its retry limit more than
      `limits` times. */
  predicate WithinLimits(c: Config, s: System, n: nat, limits: nat) {
    Settled(c, s.sender, n) || Counted(s.sender, n) + Takes(s, n) <= c.maxRetry + 1 + limits
  }

  ghost predicate OthersWithinLimits(c: Config, s: System, x: nat) {
    forall n: nat :: Takes(s, n) > 0 && n != x ==> WithinLimits(c, s, n, 0)
  }

  /** A retry limit met in this state ends a wait; in any other state it stops the sender. */
  predicate Waits(state: SenderState) {
    state in {SenderState.Connecting, SenderState.Pushing, SenderState.Stopping, SenderState.Disconnecting}
  }

  /** send_handler can work through its queue without being stopped: at most one number, `x`, meets its limit,
      at most once, and only while the caller waits. */
  ghost predicate CanWorkOff(c: Config, s: System, x: nat) {
    OthersWithinLimits(c, s, x) && WithinLimits(c, s, x, if Waits(s.sender.state) then 1 else 0)
  }

  /** Number `u` is the last in the queue, and new: send_handler will send it when it gets there. */
  ghost predicate LastInQueue(c: Config, s: System, u: nat) {
    && s.sender.running && s.sender.lower < s.sender.upper
    && u in s.sender.pending && u in s.sender.pool && u !in s.sender.retry && !Settled(c, s.sender, u)
    && (forall n :: n in s.sender.pending ==> n <= u)
    && (s.held.Some? ==> s.held.value < u)
  }

  lemma TakeHeld(c: Config, s: System, u: nat, x: nat)
    requires LastInQueue(c, s, u) && CanWorkOff(c, s, x) && s.held.Some? && s.held.value < u
    ensures Enabled(c, s, Process(s.clock))
    ensures var t := Do(c, s, Process(s.clock));
      && LastInQueue(c, t, u) && CanWorkOff(c, t, x) && t.held == None && t.receiver == s.receiver
      && t.sender.pending == s.sender.pending && t.sender.pool[u] == s.sender.pool[u]
  {
    var n := s.held.value;
    assert Takes(s, n) > 0 && WithinLimits(c, s, n, if n == x && Waits(s.sender.state) then 1 else 0);
    ProcessKeepsWindow(c, s.sender, n, s.clock);
    if Abandons(c, s.sender, n) {
      MeetLimit(c, s, x);
    } else {
      TakeOne(c, s, x);
    }
    StaysLast(c, s, u);
  }

  lemma StaysLast(c: Config, s: System, u: nat)
    requires LastInQueue(c, s, u) && s.held.Some? && s.held.value < u
    requires Abandons(c, s.sender, s.held.value) ==> Waits(s.sender.state)
    ensures var t := Do(c, s, Process(s.clock));
      LastInQueue(c, t, u) && t.held == None && t.sender.pool[u] == s.sender.pool[u]
  {}

  lemma MeetLimit(c: Config, s: System, x: nat)
    requires CanWorkOff(c, s, x) && s.held.Some? && Abandons(c, s.sender, s.held.value)
    ensures s.held == Some(x) && Waits(s.sender.state)
    ensures CanWorkOff(c, Do(c, s, Process(s.clock)), x)
  {
    var n, t := s.held.value, Do(c, s, Process(s.clock));
    assert Takes(s, n) > 0;
    assert t.sender.retry == s.sender.retry && t.sender.pending == s.sender.pending;
    forall m: nat | Takes(t, m) > 0 && m != x
      ensures WithinLimits(c, t, m, 0)
    {
      assert Takes(s, m) > 0;
    }
  }

  lemma TakeOne(c: Config, s: System, x: nat)
    requires CanWorkOff(c, s, x) && s.held.Some? && !Abandons(c, s.sender, s.held.value)
    requires s.sender.lower < s.sender.upper
    ensures CanWorkOff(c, Do(c, s, Process(s.clock)), x)
  {
    var n, t := s.held.value, Do(c, s, Process(s.clock));
    assert Takes(s, n) > 0;
    ProcessKeepsWindow(c, s.sender, n, s.clock);
    forall m: nat
      ensures WithinLimits(c, s, m, 0) ==> WithinLimits(c, t, m, 0)
      ensures WithinLimits(c, s, m, 1) ==> WithinLimits(c, t, m, 1)
    {
      assert m != n ==> Counted(t.sender, m) == Counted(s.sender, m) && Takes(t, m) == Takes(s, m);
    }
    forall m: nat | Takes(t, m) > 0 && m != x
      ensures WithinLimits(c, t, m, 0)
    {
      assert Takes(s, m) > 0;
    }
  }

  lemma PopFirst(c: Config, s: System, u: nat, x: nat) returns (n: nat, popped: System)
    requires LastInQueue(c, s, u) && CanWorkOff(c, s, x) && s.held == None
    ensures Enabled(c, s, Pop) && popped == Do(c, s, Pop) && popped.held == Some(n) && n <= u
    ensures popped == s.(sender := s.sender.(pending := s.sender.pending - {n}), held := Some(n))
    ensures n in s.sender.pending && |popped.sender.pending| < |s.sender.pending|
    ensures CanWorkOff(c, popped, x)
  {
    n, popped := Least(s.sender.pending), Do(c, s, Pop);
    FewerPending(s.sender.pending, n);
    forall m: nat
      ensures Takes(popped, m) == Takes(s, m)
    {}
    assert forall m: nat, limits: nat :: WithinLimits(c, s, m, limits) ==> WithinLimits(c, popped, m, limits);
  }

  lemma SendLast(c: Config, s: System, u: nat)
    requires s.held == Some(u) && u !in s.sender.retry && !Settled(c, s.sender, u)
    requires s.sender.lower < s.sender.upper && u in s.sender.pool
    ensures Enabled(c, s, Process(s.clock))
    ensures var t := Do(c, s, Process(s.clock));
      s.sender.pool[u] in t.data && t.receiver == s.receiver && t.misstep == s.misstep
  {
    assert Transmits(c, s.sender, u);
    TransmissionEffect(c, s, s.clock);
  }

  /** send_handler works through its queue and sends the last number. */
  lemma {:induction false} SendUpTo(c: Config, s: System, u: nat, x: nat) returns (steps: seq<Step>)
    requires LastInQueue(c, s, u) && CanWorkOff(c, s, x) && s.held == None
    ensures CanRun(c, s, steps)
    ensures var t := Run(c, s, steps);
      t.receiver == s.receiver && t.misstep == s.misstep && s.sender.pool[u] in t.data
    decreases |s.sender.pending|
  {
    var n, popped := PopFirst(c, s, u, x);
    var process := Process(s.clock);
    if n == u {
      SendLast(c, popped, u);
      TwoSteps(c, s, Pop, process);
      steps := [Pop] + [process];
    } else {
      TakeHeld(c, popped, u, x);
      TwoSteps(c, s, Pop, process);
      var rest := SendUpTo(c, Do(c, popped, process), u, x);
      RunJoin(c, s, [Pop] + [process], rest);
      steps := [Pop] + [process] + rest;
    }
  }

  lemma SendWithHeld(c: Config, s: System, u: nat, x: nat) returns (steps: seq<Step>)
    requires LastInQueue(c, s, u) && CanWorkOff(c, s, x)
    ensures CanRun(c, s, steps)
    ensures var t := Run(c, s, steps);
      t.receiver == s.receiver && t.misstep == s.misstep && s.sender.pool[u] in t.data
  {
    if s.held == None {
      steps := SendUpTo(c, s, u, x);
    } else {
      var process := Process(s.clock);
      TakeHeld(c, s, u, x);
      OneStep(c, s, process);
      var rest := SendUpTo(c, Do(c, s, process), u, x);
      RunJoin(c, s, [process], rest);
      steps := [process] + rest;
    }
  }

  /** Once it is numbered and inserted, a packet is the last in the queue. */
  lemma NumberedIsQueued(c: Config, s: System, x: nat)
    requires c.Valid() && Safe(c, s) && SenderOk(c, s) && Enabled(c, s, BumpUpper) && s.sender.running
    requires CanWorkOff(c, s, x)
    ensures Enabled(c, Do(c, s, BumpUpper), Insert)
    ensures var u, t := s.sender.upper, Do(c, Do(c, s, BumpUpper), Insert);
      && LastInQueue(c, t, u) && CanWorkOff(c, t, x) && t.receiver == s.receiver && t.misstep == s.misstep
      && t.sender.pool[u] == Packet(VERSION, s.caller.stage.kind, u, s.caller.stage.payload)
  {
    NextIsNew(c, s);
    NumberedAndInserted(c, s);
    NewIsLast(c, s, Packet(VERSION, s.caller.stage.kind, s.sender.upper, s.caller.stage.payload));
    NewCanBeWorkedOff(c, s, Do(c, Do(c, s, BumpUpper), Insert), x);
  }

  lemma NewIsLast(c: Config, s: System, p: Packet)
    requires NumbersKnown(s) && s.sender.running && p.number == s.sender.upper && s.sender.lower <= s.sender.upper
    requires p.number !in s.sender.pool && p.number !in s.sender.retry && p.number !in s.sender.acked
    ensures LastInQueue(c, s.(sender := InsertPacket(s.sender.(upper := s.sender.upper + 1), p)), p.number)
  {}

  lemma NewCanBeWorkedOff(c: Config, s: System, t: System, x: nat)
    requires CanWorkOff(c, s, x) && NumbersKnown(s) && s.sender.upper !in s.sender.retry
    requires t.sender.pending == s.sender.pending + {s.sender.upper} && t.held == s.held
    requires t.sender.retry == s.sender.retry && t.sender.state == s.sender.state
    requires t.sender.lower == s.sender.lower && t.sender.acked == s.sender.acked
    ensures CanWorkOff(c, t, x)
  {
    var u := s.sender.upper;
    forall n: nat
      ensures n != u ==> Takes(t, n) == Takes(s, n) && Counted(t.sender, n) == Counted(s.sender, n)
    {}
    assert Counted(t.sender, u) == 0 && Takes(t, u) == 1;
  }

  /** If the receiver lacks a packet, a running sender can put the next number on the wire too early. */
  lemma NumberedOvertakes(c: Config, s: System, x: nat) returns (steps: seq<Step>)
    requires c.Valid() && Safe(c, s) && SenderOk(c, s) && Enabled(c, s, BumpUpper) && s.sender.running
    requires s.receiver.first < s.sender.upper && CanWorkOff(c, s, x)
    ensures CanRun(c, Do(c, s, BumpUpper), steps)
    ensures var t := Run(c, Do(c, s, BumpUpper), steps);
      t.misstep == s.misstep && !NotEarly(t, s.sender.upper)
  {
    var numbered := Do(c, s, BumpUpper);
    NumberedIsQueued(c, s, x);
    OneStep(c, numbered, Insert);
    var inserted := Do(c, numbered, Insert);
    var send := SendWithHeld(c, inserted, s.sender.upper, x);
    RunJoin(c, numbered, [Insert], send);
    steps := [Insert] + send;
    assert inserted.sender.pool[s.sender.upper].number == s.sender.upper;
  }

  // ---- The exact condition ----

  /** The exact condition, for a packet of any kind: when it is numbered, and send_handler can work through its
      queue without being stopped, then the packet is in order in every continuation if and only if the
      receiver has written everything or the sender has stopped. */
  lemma InOrderExactly(c: Config, s: System, x: nat)
    requires c.Valid() && Reachable(c, s) && Enabled(c, s, BumpUpper) && CanWorkOff(c, s, x)
    ensures AlwaysInOrder(c, Do(c, s, BumpUpper), |s.log|) <==> s.receiver.first == |s.log| || !s.sender.running
  {
    NumberingIsBeforeDisconnect(c, s);
    ReachableSenderOk(c, s);
    if s.receiver.first == |s.log| || !s.sender.running {
      FlushedOrStoppedIsInOrder(c, s);
    } else {
      var steps := NumberedOvertakes(c, s, x);
    }
  }

  /** An empty window is a case that the calling thread can see: then everything has been written, and no retry
      limit is due. DataStop is always numbered with an empty window. */
  lemma EmptyWindowIsFlushed(c: Config, s: System)
    requires c.Valid() && Reachable(c, s) && BeforeNumbering(s.caller.stage) && s.sender.lower == s.sender.upper
    ensures s.receiver.first == |s.log| && CanWorkOff(c, s, s.sender.upper)
  {
    NumberingIsBeforeDisconnect(c, s);
    ReachableSenderOk(c, s);
    assert forall n: nat :: Takes(s, n) > 0 ==> n < s.sender.upper;
  }

  // ---- DisconnReq ----

  /** A DisconnReq that is always in order makes no misstep in any continuation. */
  lemma {:induction false} InOrderDisconnectIsSafe(c: Config, s: System, steps: seq<Step>)
    requires c.Valid() && Safe(c, s) && !s.misstep && Disconnects(s.log) && CanRun(c, s, steps)
    requires AlwaysInOrder(c, s, |s.log| - 1)
    ensures var t := Run(c, s, steps); Safe(c, t) && !t.misstep
    decreases |steps|
  {
    if |steps| > 0 {
      var step, next := steps[0], Do(c, s, steps[0]);
      assert CanRun(c, s, []) && Run(c, s, []) == s;
      assert NotEarly(s, |s.log| - 1);
      if step.Deliver? && step.packet.kind == DisconnReq {
        DisconnReqIsLast(s.log, step.packet);
      }
      assert step.Deliver? ==> !Missteps(s.receiver, step.packet);
      NoNewMisstep(c, s, step);
      StepSafe(c, s, step);
      LastStays(c, s, step);
      StaysInOrder(c, s, step, |s.log| - 1);
      InOrderDisconnectIsSafe(c, next, steps[1..]);
    }
  }

  lemma StaysInOrder(c: Config, s: System, step: Step, u: nat)
    requires Enabled(c, s, step) && AlwaysInOrder(c, s, u)
    ensures AlwaysInOrder(c, Do(c, s, step), u)
  {
    var next := Do(c, s, step);
    forall steps | CanRun(c, next, steps) && !Run(c, next, steps).misstep
      ensures NotEarly(Run(c, next, steps), u)
    {
      OneStep(c, s, step);
      RunJoin(c, s, [step], steps);
      assert CanRun(c, s, [step] + steps);
    }
  }

  /** Nothing is numbered behind DisconnReq. */
  lemma LastStays(c: Config, s: System, step: Step)
    requires NumberingOk(s) && Disconnects(s.log) && Enabled(c, s, step)
    ensures Do(c, s, step).log == s.log
  {
    if step.Deliver? {
      DeliveryTouchesNoSender(c, s, step.packet);
    }
  }

  /** The guard that disconnect lacks: if the window is empty when it numbers DisconnReq, then in every
      continuation, after any number of sends and any retry limits, DisconnReq is never early, there is no
      misstep, and the output stays in order. */
  lemma EmptyWindowKeepsOrder(c: Config, s: System, steps: seq<Step>)
    requires c.Valid() && Reachable(c, s)
    requires Enabled(c, s, BumpUpper) && s.caller.phase == Phase.Disconnecting && s.sender.lower == s.sender.upper
    requires CanRun(c, Do(c, s, BumpUpper), steps)
    ensures var t := Run(c, Do(c, s, BumpUpper), steps);
      && !t.misstep && t.receiver.first <= |t.log| && t.receiver.out == Payloads(t.log[..t.receiver.first])
      && NotEarly(t, |s.log|)
  {
    NumberingIsBeforeDisconnect(c, s);
    EmptyWindowIsFlushed(c, s);
    FlushedOrStoppedIsInOrder(c, s);
    var numbered := DisconnectNumbered(c, s);
    InOrderDisconnectIsSafe(c, numbered, steps);
    assert NotEarly(Run(c, numbered, steps), |s.log|);
  }

  lemma DisconnectNumbered(c: Config, s: System) returns (t: System)
    requires c.Valid() && Safe(c, s) && !s.misstep
    requires Enabled(c, s, BumpUpper) && s.caller.phase == Phase.Disconnecting
    ensures t == Do(c, s, BumpUpper) && Safe(c, t) && !t.misstep && Disconnects(t.log) && |t.log| == |s.log| + 1
  {
    StepSafe(c, s, BumpUpper);
    t := Do(c, s, BumpUpper);
  }
}

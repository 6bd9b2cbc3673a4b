/** A run of three sends whose third file is written without a yield of true: a stale DataStopAck ends the
    second send early, and the third DataPush reaches a receiver that is still in the second transfer. */
module MissedYield {
  import opened Options
  import opened Packets
  import opened Settings
  import opened SenderModel
  import opened System
  import opened SenderFacts
  import opened ReceiverFacts
  import opened Safety
  import opened BeforeDisconnect
  import opened Progress
  import opened Transfers
  import RM = ReceiverModel

  /** Room for two numbers at both ends. */
  predicate RoomForTwo(c: Config) {
    c.Valid() && c.sendWindow >= 2 && c.recvWindow >= 2
  }

  /** The client's side of both ends. */
  predicate SameEnds(s: System, t: System) {
    && t.receiver == s.receiver && t.yielded == s.yielded && t.caller.files == s.caller.files
    && t.misstep == s.misstep && s.data <= t.data
  }

  // ---- The second send, up to its DataStop ----

  /** The second DataStop is numbered and not sent; `stale` is the first one. */
  ghost predicate StopNumbered(c: Config, s: System, stale: Packet) {
    && CanFinish(c, s) && Parked(s) && !s.misstep && s.caller.stage == Outside
    && s.sender.lower == s.receiver.first && s.sender.lower + 1 == s.sender.upper
    && s.receiver.state == RM.Receiving && !s.receiver.done && s.receiver.buffer == map[]
    && s.log[s.sender.lower].kind == DataStop
    && stale in s.data && stale.kind == DataStop && stale.number < s.receiver.first
    && (forall p :: p in s.log[..s.sender.lower] ==> p in s.data)
    && (forall p :: p in s.data ==> p.number < s.sender.lower)
  }

  lemma NumberStop(c: Config, s: System, stale: Packet) returns (steps: seq<Step>, t: System)
    requires c.Valid() && AtRest(c, s) && AtPhase(s, Drained) && s.receiver.state == RM.Receiving
    requires stale in s.log && stale.kind == DataStop
    ensures CanRun(c, s, steps) && Run(c, s, steps) == t
    ensures StopNumbered(c, t, stale) && SameEnds(s, t)
    ensures t.caller.phase == Phase.Stopping && t.sender.state == SenderState.Stopping
  {
    CallAtRest(c, s, BeginStop);
    var called := Do(c, s, BeginStop);
    var number := NumberAsked(c, called);
    t := AfterNumbering(called);
    RunJoin(c, s, [BeginStop], number);
    steps := [BeginStop] + number;
    assert t.log == s.log + [Asked(called)];
    assert t.log[..t.sender.lower] == s.log;
  }

  // ---- The stale ack ----

  /** An ack of a number that is not outstanding moves nothing. */
  lemma StaleAck(c: Config, s: System)
    requires c.Valid() && CanFinish(c, s) && Enabled(c, s, Ack) && s.held == None && !s.caller.stage.Bumped?
    requires s.sender.lower == s.receiver.first
    ensures var t := Do(c, s, Ack);
      && CanFinish(c, t) && Parked(t) && t.sender.lower == s.sender.lower
      && t == s.(sender := t.sender, listener := Listening)
      && t.sender.upper == s.sender.upper && t.sender.state == s.sender.state
  {
    AckWithinBudget(c, s);
    AcknowledgeKeepsOrder(c, s.sender, s.receiver, s.listener.ack.number);
    SlideOnlyForward(c, s.sender, s.listener.ack.number);
  }

  /** The sender hears an ack that does not move its window. */
  lemma HearStale(c: Config, s: System, ack: Packet) returns (steps: seq<Step>, t: System)
    requires c.Valid() && CanFinish(c, s) && Parked(s) && ack in s.acks && s.sender.lower == s.receiver.first
    ensures CanRun(c, s, steps) && Run(c, s, steps) == t
    ensures CanFinish(c, t) && Parked(t) && t.sender.lower == s.sender.lower && t.sender.upper == s.sender.upper
    ensures t == s.(sender := t.sender) && t.sender.state == StateAfter(s.sender.state, ack.kind)
  {
    var hear, acking := HearAnswer(c, s, ack);
    SameRetries(c, s, acking);
    StaleAck(c, acking);
    t := Do(c, acking, Ack);
    OneStep(c, acking, Ack);
    RunJoin(c, s, hear, [Ack]);
    steps := hear + [Ack];
  }

  /** A packet that the receiver has written is acked again. */
  lemma DeliverAgain(c: Config, s: System, p: Packet) returns (ack: Packet)
    requires c.Valid() && CanFinish(c, s) && Parked(s) && p in s.data && p.number < s.receiver.first
    requires s.receiver.state != RM.Idle && !s.receiver.done
    ensures Enabled(c, s, Deliver(p)) && ack.kind == GetAckKind(p.kind).value
    ensures var t := Do(c, s, Deliver(p));
      CanFinish(c, t) && Parked(t) && t == s.(acks := s.acks + {ack})
  {
    assert InLog(s.log, p);
    ack := RM.Receive(c, s.receiver, p).ack.value;
    StepKeepsInvariants(c, s, Deliver(p));
    SameRetries(c, s, Do(c, s, Deliver(p)));
  }

  lemma EndEarly(c: Config, s: System, stale: Packet) returns (steps: seq<Step>, t: System)
    requires c.Valid() && StopNumbered(c, s, stale)
    requires s.caller.phase == Phase.Stopping && s.sender.state == SenderState.Stopping
    ensures CanRun(c, s, steps) && Run(c, s, steps) == t
    ensures StopNumbered(c, t, stale) && SameEnds(s, t)
    ensures AtPhase(t, Ready) && t.sender.state == SenderState.Connected
  {
    var ack := DeliverAgain(c, s, stale);
    var delivered := Do(c, s, Deliver(stale));
    var hear, heard := HearStale(c, delivered, ack);
    OneStep(c, heard, StopReturns);
    StepKeepsInvariants(c, heard, StopReturns);
    t := Do(c, heard, StopReturns);
    SameRetries(c, heard, t);
    OneStep(c, s, Deliver(stale));
    RunJoin(c, delivered, hear, [StopReturns]);
    RunJoin(c, s, [Deliver(stale)], hear + [StopReturns]);
    steps := [Deliver(stale)] + (hear + [StopReturns]);
  }

  // ---- The third DataPush ----

  /** The second DataStop and the third DataPush are numbered. */
  ghost predicate BothNumbered(c: Config, s: System, file: Bytes) {
    && Safe(c, s) && SenderOk(c, s) && s.sender.running && Parked(s) && !s.misstep
    && s.caller.stage == Outside && s.caller.phase == Phase.Pushing(file)
    && s.sender.state == SenderState.Pushing
    && s.sender.lower == s.receiver.first && s.sender.lower + 2 == s.sender.upper == |s.log|
    && s.receiver.state == RM.Receiving && !s.receiver.done && s.receiver.buffer == map[]
    && s.log[s.sender.lower].kind == DataStop && s.log[s.sender.lower + 1].kind == DataPush
    && (forall p :: p in s.log[..s.sender.lower] ==> p in s.data)
    && BudgetLeft(c, s)
  }

  lemma NumberPush(c: Config, s: System, stale: Packet, file: Bytes) returns (steps: seq<Step>, t: System)
    requires RoomForTwo(c) && StopNumbered(c, s, stale) && AtPhase(s, Ready)
    ensures CanRun(c, s, steps) && Run(c, s, steps) == t
    ensures BothNumbered(c, t, file) && !OnTheWire(t, t.sender.lower)
    ensures SameEnds(s.(caller := s.caller.(files := s.caller.files + [file])), t)
  {
    var called := AskPush(c, s, file);
    var number;
    number, t := NumberNext(c, called);
    RunJoin(c, s, [StartSend(file)], number);
    steps := [StartSend(file)] + number;
    NewBudget(c, s, t);
    PushIsNumbered(c, s, t, stale, file);
  }

  lemma AskPush(c: Config, s: System, file: Bytes) returns (t: System)
    requires c.Valid() && Safe(c, s) && SenderOk(c, s) && AtPhase(s, Ready)
    ensures CanRun(c, s, [StartSend(file)]) && Run(c, s, [StartSend(file)]) == t && Safe(c, t) && SenderOk(c, t)
    ensures t == s.(sender := s.sender.(state := SenderState.Pushing),
                    caller := Caller(Phase.Pushing(file), Waiting(DataPush, []), s.caller.files + [file],
                                     s.caller.dropped))
  {
    OneStep(c, s, StartSend(file));
    StepKeepsInvariants(c, s, StartSend(file));
    t := Do(c, s, StartSend(file));
  }

  lemma PushIsNumbered(c: Config, s: System, t: System, stale: Packet, file: Bytes)
    requires StopNumbered(c, s, stale) && AtPhase(s, Ready)
    requires Safe(c, t) && SenderOk(c, t) && BudgetLeft(c, t)
    requires var p := Packet(VERSION, DataPush, s.sender.upper, []);
      t == s.(sender := InsertPacket(s.sender.(state := SenderState.Pushing, upper := s.sender.upper + 1), p),
              log := s.log + [p],
              caller := Caller(Phase.Pushing(file), Outside, s.caller.files + [file], s.caller.dropped))
    ensures BothNumbered(c, t, file) && !OnTheWire(t, t.sender.lower)
  {
    assert t.log[..t.sender.lower] == s.log[..t.sender.lower];
    assert t.log[t.sender.lower] == s.log[t.sender.lower];
    assert t.log[t.sender.lower].number == t.sender.lower;
  }

  lemma NewBudget(c: Config, s: System, t: System)
    requires CanFinish(c, s) && SenderOk(c, s) && t.sender.retry == s.sender.retry && t.abandoned == s.abandoned
    requires t.sender.lower == s.sender.lower && t.sender.upper == s.sender.upper + 1
    requires t.sender.acked == s.sender.acked && t.data == s.data && s.log <= t.log
    ensures BudgetLeft(c, t)
  {
    forall n: nat | Outstanding(c, t, n)
      ensures n !in t.abandoned && (TryLeft(c, t, n) || OnTheWire(t, n))
    {
      if n < s.sender.upper {
        assert Outstanding(c, s, n);
      }
    }
  }

  // ---- Both are sent ----

  /** The DataStop goes out first; the DataPush waits behind it. */
  lemma SendStop(c: Config, s: System, file: Bytes) returns (steps: seq<Step>, t: System)
    requires RoomForTwo(c) && BothNumbered(c, s, file) && !OnTheWire(s, s.sender.lower)
    ensures CanRun(c, s, steps) && Run(c, s, steps) == t
    ensures BothNumbered(c, t, file) && OnTheWire(t, t.sender.lower) && SameEnds(s, t)
    ensures t.sender.pending == {t.sender.lower + 1}
  {
    assert Outstanding(c, s, s.sender.lower);
    steps := SendingPart(c, s);
    t := Run(c, s, steps);
    StopIsSent(c, s, t, file);
    OnlyPushPending(c, t);
  }

  lemma StopIsSent(c: Config, s: System, t: System, file: Bytes)
    requires BothNumbered(c, s, file) && LowestSent(c, t) && SameWindow(s, t)
    ensures BothNumbered(c, t, file) && OnTheWire(t, t.sender.lower) && t.sender.lower + 1 !in t.abandoned
  {
    var u := s.sender.lower + 1;
    assert u in s.sender.acked ==> Holds(s.receiver, u);
    assert Outstanding(c, s, u) && Outstanding(c, s, s.sender.lower);
  }

  lemma OnlyPushPending(c: Config, s: System)
    requires Safe(c, s) && SenderOk(c, s) && Parked(s) && OnlyLowestTimed(s) && s.receiver.buffer == map[]
    requires s.sender.lower == s.receiver.first && s.sender.lower + 2 == s.sender.upper
    requires s.sender.lower + 1 !in s.abandoned
    ensures s.sender.pending == {s.sender.lower + 1}
  {
    var u := s.sender.lower + 1;
    assert u in s.sender.acked ==> Holds(s.receiver, u);
    assert LookedAfter(s, u);
  }

  lemma SendPush(c: Config, s: System, file: Bytes) returns (steps: seq<Step>, t: System)
    requires RoomForTwo(c) && BothNumbered(c, s, file) && OnTheWire(s, s.sender.lower)
    requires s.sender.pending == {s.sender.lower + 1}
    ensures CanRun(c, s, steps) && Run(c, s, steps) == t
    ensures BothNumbered(c, t, file) && OnTheWire(t, t.sender.lower) && OnTheWire(t, t.sender.lower + 1)
    ensures SameEnds(s, t)
  {
    if OnTheWire(s, s.sender.lower + 1) {
      steps, t := [], s;
    } else {
      steps, t := PopPush(c, s, file);
      PushIsSent(c, s, t, file);
    }
  }

  lemma PopPush(c: Config, s: System, file: Bytes) returns (steps: seq<Step>, t: System)
    requires RoomForTwo(c) && BothNumbered(c, s, file) && !OnTheWire(s, s.sender.lower + 1)
    requires s.sender.pending == {s.sender.lower + 1}
    ensures CanRun(c, s, steps) && Run(c, s, steps) == t && Safe(c, t) && SenderOk(c, t)
    ensures t == s.(sender := t.sender, clock := t.clock, data := s.data + {s.log[s.sender.lower + 1]})
    ensures t.sender.lower == s.sender.lower && t.sender.upper == s.sender.upper
    ensures t.sender.state == s.sender.state && t.sender.running
  {
    var popped := PushIsReady(c, s, file);
    StepKeepsInvariants(c, popped, Process(s.clock));
    TransmissionEffect(c, popped, s.clock);
    TwoSteps(c, s, Pop, Process(s.clock));
    steps, t := [Pop] + [Process(s.clock)], Do(c, popped, Process(s.clock));
  }

  lemma PushIsReady(c: Config, s: System, file: Bytes) returns (popped: System)
    requires RoomForTwo(c) && BothNumbered(c, s, file) && !OnTheWire(s, s.sender.lower + 1)
    requires s.sender.pending == {s.sender.lower + 1}
    ensures Enabled(c, s, Pop) && popped == Do(c, s, Pop) && Safe(c, popped) && SenderOk(c, popped)
    ensures popped == s.(sender := s.sender.(pending := {}), held := Some(s.sender.lower + 1))
    ensures Transmits(c, popped.sender, s.sender.lower + 1)
    ensures popped.sender.pool[s.sender.lower + 1] == s.log[s.sender.lower + 1]
  {
    var u := s.sender.lower + 1;
    assert u in s.sender.acked ==> Holds(s.receiver, u);
    assert Outstanding(c, s, u);
    assert u in s.sender.pool;
    popped := PopOnly(c, s, u);
  }

  lemma PushIsSent(c: Config, s: System, t: System, file: Bytes)
    requires BothNumbered(c, s, file) && OnTheWire(s, s.sender.lower) && Safe(c, t) && SenderOk(c, t)
    requires t == s.(sender := t.sender, clock := t.clock, data := s.data + {s.log[s.sender.lower + 1]})
    requires t.sender.lower == s.sender.lower && t.sender.upper == s.sender.upper
    requires t.sender.state == s.sender.state && t.sender.running
    ensures BothNumbered(c, t, file) && OnTheWire(t, t.sender.lower) && OnTheWire(t, t.sender.lower + 1)
  {
    assert s.sender.lower in s.sender.acked ==> Holds(s.receiver, s.sender.lower);
    assert s.sender.lower + 1 in s.sender.acked ==> Holds(s.receiver, s.sender.lower + 1);
    assert Outstanding(c, s, s.sender.lower) && Outstanding(c, s, s.sender.lower + 1);
    BothOutstanding(c, t);
  }

  /** Two packets on the wire need no further try. */
  lemma BothOutstanding(c: Config, s: System)
    requires s.sender.lower + 2 == s.sender.upper && s.abandoned !! {s.sender.lower, s.sender.lower + 1}
    requires OnTheWire(s, s.sender.lower) && OnTheWire(s, s.sender.lower + 1)
    ensures BudgetLeft(c, s)
  {}

  // ---- The third DataPush arrives first ----

  /** A receiver in a transfer buffers a DataPush that is one ahead, and stays in its transfer. */
  lemma BufferPush(c: Config, r: RM.Receiver, p: Packet, log: seq<Packet>)
    requires RoomForTwo(c) && LogOk(log) && ReceiverOk(c, r, log) && InLog(log, p)
    requires r.state == RM.Receiving && !r.done && r.buffer == map[] && p.kind == DataPush && p.number == r.first + 1
    ensures var reply := RM.Receive(c, r, p);
      && reply.receiver == r.(buffer := map[p.number := p]) && reply.event == None
      && reply.ack.Some? && reply.ack.value.kind == DataPushAck
    ensures !Missteps(r, p)
  {
    var r2 := RM.Buffer(RM.Transition(c, r, p), p);
    assert r2 == r.(buffer := map[p.number := p]);
    assert RM.Slide(r2) == r2;
  }

  /** The third send streams, although its DataPush waits behind the second DataStop. */
  ghost predicate StreamingEarly(c: Config, s: System, file: Bytes) {
    && CanFinish(c, s) && Parked(s) && !s.misstep && AtPhase(s, Streaming(file, true))
    && s.sender.state == SenderState.Sending
    && s.sender.lower == s.receiver.first && s.sender.lower + 2 == s.sender.upper == |s.log|
    && s.receiver.state == RM.Receiving && !s.receiver.done
    && s.receiver.buffer.Keys == {s.receiver.first + 1}
    && s.log[s.sender.lower].kind == DataStop && s.log[s.sender.lower + 1].kind == DataPush
    && (forall p :: p in s.log ==> p in s.data)
  }

  lemma PushArrives(c: Config, s: System, file: Bytes) returns (ack: Packet)
    requires RoomForTwo(c) && BothNumbered(c, s, file) && OnTheWire(s, s.sender.lower)
    requires OnTheWire(s, s.sender.lower + 1)
    ensures var p := s.log[s.sender.lower + 1]; Enabled(c, s, Deliver(p))
    ensures var p, t := s.log[s.sender.lower + 1], Do(c, s, Deliver(s.log[s.sender.lower + 1]));
      && CanFinish(c, t) && t == s.(receiver := s.receiver.(buffer := map[p.number := p]), acks := s.acks + {ack})
      && ack.kind == DataPushAck && Parked(t) && t.sender.lower == t.receiver.first
  {
    var p := s.log[s.sender.lower + 1];
    assert p.number == s.sender.lower + 1;
    BufferPush(c, s.receiver, p, s.log);
    ack := RM.Receive(c, s.receiver, p).ack.value;
    DeliveryTouchesNoSender(c, s, p);
    StepKeepsInvariants(c, s, Deliver(p));
    SameRetries(c, s, Do(c, s, Deliver(p)));
  }

  lemma EverythingSent(log: seq<Packet>, data: set<Packet>, n: nat)
    requires n + 2 == |log| && log[n] in data && log[n + 1] in data
    requires forall p :: p in log[..n] ==> p in data
    ensures forall p :: p in log ==> p in data
  {
    assert log == log[..n] + [log[n]] + [log[n + 1]];
  }

  lemma PushReturned(c: Config, s: System) returns (t: System)
    requires c.Valid() && CanFinish(c, s) && Parked(s) && s.sender.state == SenderState.Sending
    requires s.caller.stage == Outside && s.caller.phase.Pushing?
    ensures Enabled(c, s, PushReturns) && t == Do(c, s, PushReturns)
    ensures CanFinish(c, t) && Parked(t)
    ensures t == s.(caller := s.caller.(phase := Streaming(s.caller.phase.file, true)))
  {
    t := Do(c, s, PushReturns);
    StepKeepsInvariants(c, s, PushReturns);
    SameRetries(c, s, t);
  }

  /** The receiver's buffer holds the third DataPush, and its ack ends the wait. */
  lemma PushAcked(c: Config, s: System, file: Bytes) returns (steps: seq<Step>, t: System)
    requires RoomForTwo(c) && BothNumbered(c, s, file) && OnTheWire(s, s.sender.lower)
    requires OnTheWire(s, s.sender.lower + 1)
    ensures CanRun(c, s, steps) && Run(c, s, steps) == t
    ensures CanFinish(c, t) && Parked(t) && t.sender.state == SenderState.Sending
    ensures t.sender.lower == s.sender.lower && t.sender.upper == s.sender.upper
    ensures var p := s.log[s.sender.lower + 1];
      t == s.(sender := t.sender, receiver := s.receiver.(buffer := map[p.number := p]), acks := t.acks)
  {
    var deliver := Deliver(s.log[s.sender.lower + 1]);
    var ack := PushArrives(c, s, file);
    var delivered := Do(c, s, deliver);
    OneStep(c, s, deliver);
    var hear;
    hear, t := HearStale(c, delivered, ack);
    RunJoin(c, s, [deliver], hear);
    steps := [deliver] + hear;
    HeardPushAck(s, delivered, t, ack);
  }

  lemma HeardPushAck(s: System, delivered: System, t: System, ack: Packet)
    requires s.sender.state == SenderState.Pushing && delivered.sender == s.sender && ack.kind == DataPushAck
    requires t == delivered.(sender := t.sender) && t.sender.state == StateAfter(s.sender.state, ack.kind)
    ensures t.sender.state == SenderState.Sending && t.acks == delivered.acks
  {}

  lemma BecomesEarly(c: Config, s: System, t: System, file: Bytes)
    requires BothNumbered(c, s, file) && OnTheWire(s, s.sender.lower) && OnTheWire(s, s.sender.lower + 1)
    requires CanFinish(c, t) && Parked(t) && t.sender.state == SenderState.Sending
    requires t.sender.lower == s.sender.lower && t.sender.upper == s.sender.upper
    requires t.log == s.log && t.data == s.data && t.misstep == s.misstep && AtPhase(t, Streaming(file, true))
    requires t.receiver == s.receiver.(buffer := map[s.log[s.sender.lower + 1].number := s.log[s.sender.lower + 1]])
    ensures StreamingEarly(c, t, file)
  {
    EverythingSent(s.log, s.data, s.sender.lower);
    assert s.log[s.sender.lower + 1].number == s.sender.lower + 1;
  }

  lemma StreamEarly(c: Config, s: System, file: Bytes) returns (steps: seq<Step>, t: System)
    requires RoomForTwo(c) && BothNumbered(c, s, file) && OnTheWire(s, s.sender.lower)
    requires OnTheWire(s, s.sender.lower + 1)
    ensures CanRun(c, s, steps) && Run(c, s, steps) == t
    ensures StreamingEarly(c, t, file) && t.receiver.out == s.receiver.out && t.yielded == s.yielded
    ensures t.caller.files == s.caller.files
  {
    var acked, heard := PushAcked(c, s, file);
    t := PushReturned(c, heard);
    BecomesEarly(c, s, t, file);
    OneStep(c, heard, PushReturns);
    RunJoin(c, s, acked, [PushReturns]);
    steps := acked + [PushReturns];
  }

  // ---- The second DataStop arrives, and the DataPush is written behind it ----

  lemma TakeBoth(c: Config, r: RM.Receiver, p: Packet, log: seq<Packet>)
    requires c.Valid() && LogOk(log) && ReceiverOk(c, r, log) && InLog(log, p)
    requires r.state == RM.Receiving && !r.done && p.kind == DataStop && p.number == r.first
    requires r.buffer.Keys == {r.first + 1} && r.first + 2 == |log| && log[r.first + 1].kind == DataPush
    ensures var reply := RM.Receive(c, r, p);
      && reply.receiver.first == |log| && reply.receiver.state == RM.Connected && !reply.receiver.done
      && reply.receiver.out == r.out && reply.event == Some(true)
    ensures !Missteps(r, p)
  {
    SlidKeeps(c, r, p, log);
    BufferMatches(c, r, p, log);
    var r2 := RM.Buffer(RM.Transition(c, r, p), p);
    SlideDelivers(r2, log);
    assert r.first in r2.buffer && r.first + 1 in r2.buffer;
    ControlWritesNothing(log, r.first);
  }

  lemma ControlWritesNothing(log: seq<Packet>, n: nat)
    requires n + 2 <= |log| && log[n].payload == [] && log[n + 1].payload == []
    ensures Payloads(log[..n + 2]) == Payloads(log[..n])
  {
    assert log[..n + 1] == log[..n] + [log[n]];
    PayloadsSnoc(log[..n], log[n]);
    assert log[..n + 2] == log[..n + 1] + [log[n + 1]];
    PayloadsSnoc(log[..n + 1], log[n + 1]);
  }

  /** The receiver has written both packets, and is in no transfer. */
  ghost predicate BothWritten(c: Config, s: System, file: Bytes) {
    && CanFinish(c, s) && Parked(s) && !s.misstep && AtPhase(s, Streaming(file, true))
    && s.sender.state == SenderState.Sending
    && s.receiver.first == s.sender.upper == |s.log| && s.receiver.state == RM.Connected && !s.receiver.done
    && (forall p :: p in s.log ==> p in s.data)
  }

  lemma StopWritten(c: Config, s: System, file: Bytes) returns (steps: seq<Step>, t: System)
    requires c.Valid() && StreamingEarly(c, s, file)
    ensures CanRun(c, s, steps) && Run(c, s, steps) == t && BothWritten(c, t, file)
    ensures t.sender.lower > s.sender.lower && t.sender.upper == s.sender.upper
    ensures t.receiver.out == s.receiver.out
    ensures t.yielded == s.yielded + [s.receiver.out] && t.caller.files == s.caller.files
  {
    TakeBoth(c, s.receiver, s.log[s.sender.lower], s.log);
    steps := Round(c, s);
    t := Run(c, s, steps);
  }

  lemma PushWritten(c: Config, s: System, file: Bytes) returns (steps: seq<Step>, t: System)
    requires c.Valid() && BothWritten(c, s, file) && s.sender.lower + 1 == s.sender.upper
    ensures CanRun(c, s, steps) && Run(c, s, steps) == t && BothWritten(c, t, file)
    ensures t.sender.lower == t.sender.upper && t.receiver == s.receiver
    ensures t.yielded == s.yielded && t.caller.files == s.caller.files
  {
    var p := s.log[s.sender.lower];
    assert InLog(s.log, p);
    AgainTaken(c, s, p);
    assert Target(SenderState.Sending, GetAckKind(p.kind).value) == None;
    steps := Round(c, s);
    t := Run(c, s, steps);
  }

  /** After the second DataStop the receiver has written the third DataPush, and is in no transfer. */
  lemma CatchUp(c: Config, s: System, file: Bytes) returns (steps: seq<Step>, t: System)
    requires c.Valid() && StreamingEarly(c, s, file)
    ensures CanRun(c, s, steps) && Run(c, s, steps) == t
    ensures AtRest(c, t) && AtPhase(t, Streaming(file, true)) && t.sender.state == SenderState.Sending
    ensures t.receiver.state == RM.Connected && t.receiver.out == s.receiver.out
    ensures t.yielded == s.yielded + [s.receiver.out] && t.caller.files == s.caller.files
  {
    steps, t := StopWritten(c, s, file);
    if t.sender.lower < t.sender.upper {
      var again, caughtUp := PushWritten(c, t, file);
      RunJoin(c, s, steps, again);
      steps, t := steps + again, caughtUp;
    }
    assert t.sender.lower <= t.sender.upper;
  }

  lemma AgainTaken(c: Config, s: System, p: Packet)
    requires Safe(c, s) && InLog(s.log, p) && p.number < s.receiver.first && IsRequest(p.kind)
    requires s.receiver.state != RM.Idle && !s.receiver.done
    ensures RM.Receive(c, s.receiver, p).receiver == s.receiver && RM.Receive(c, s.receiver, p).event == None
    ensures !Missteps(s.receiver, p)
  {}

  // ---- The whole run ----

  lemma SecondSend(c: Config, s: System, file: Bytes) returns (steps: seq<Step>, t: System)
    requires RoomForTwo(c) && ReadyAtRest(c, s) && |s.log| > 0 && s.log[|s.log| - 1].kind == DataStop
    ensures CanRun(c, s, steps) && Run(c, s, steps) == t
    ensures exists stale :: StopNumbered(c, t, stale)
    ensures AtPhase(t, Ready) && t.receiver.out == s.receiver.out + file
    ensures t.yielded == s.yielded && t.caller.files == s.caller.files + [file]
  {
    var stale := s.log[|s.log| - 1];
    var push, pushed := Push(c, s, file);
    var stream, streamed := StreamAll(c, pushed);
    CallAtRest(c, streamed, SeeZero);
    var drained := Do(c, streamed, SeeZero);
    RunJoin(c, pushed, stream, [SeeZero]);
    RunJoin(c, s, push, stream + [SeeZero]);
    RunLogGrows(c, s, push + (stream + [SeeZero]));
    var number, numbered := NumberStop(c, drained, stale);
    var endEarly;
    endEarly, t := EndEarly(c, numbered, stale);
    RunJoin(c, drained, number, endEarly);
    RunJoin(c, s, push + (stream + [SeeZero]), number + endEarly);
    steps := push + (stream + [SeeZero]) + (number + endEarly);
  }

  lemma ThirdSend(c: Config, s: System, stale: Packet, file: Bytes) returns (steps: seq<Step>, t: System)
    requires RoomForTwo(c) && StopNumbered(c, s, stale) && AtPhase(s, Ready)
    ensures CanRun(c, s, steps) && Run(c, s, steps) == t
    ensures ReadyAtRest(c, t) && t.receiver.out == s.receiver.out + file
    ensures t.yielded == s.yielded + [s.receiver.out] && t.caller.files == s.caller.files + [file]
  {
    var number, numbered := NumberPush(c, s, stale, file);
    var stop, stopSent := SendStop(c, numbered, file);
    var push, pushSent := SendPush(c, stopSent, file);
    var early, streaming := StreamEarly(c, pushSent, file);
    var catchUp, caughtUp := CatchUp(c, streaming, file);
    var end, ended := StreamAndStop(c, caughtUp, file);
    t := ended;
    RunJoin(c, caughtUp, [], end);
    RunJoin(c, streaming, catchUp, end);
    RunJoin(c, pushSent, early, catchUp + end);
    RunJoin(c, stopSent, push, early + (catchUp + end));
    RunJoin(c, numbered, stop, push + (early + (catchUp + end)));
    RunJoin(c, s, number, stop + (push + (early + (catchUp + end))));
    steps := number + (stop + (push + (early + (catchUp + end))));
  }

  lemma LastTwoSends(c: Config, s: System, second: Bytes, third: Bytes) returns (steps: seq<Step>, t: System)
    requires RoomForTwo(c) && ReadyAtRest(c, s) && |s.log| > 0 && s.log[|s.log| - 1].kind == DataStop
    ensures CanRun(c, s, steps) && Run(c, s, steps) == t
    ensures ReadyAtRest(c, t) && t.receiver.out == s.receiver.out + second + third
    ensures t.yielded == s.yielded + [s.receiver.out + second]
    ensures t.caller.files == s.caller.files + [second] + [third]
  {
    var again, sent := SecondSend(c, s, second);
    var stale :| StopNumbered(c, sent, stale);
    var last;
    last, t := ThirdSend(c, sent, stale, third);
    RunJoin(c, s, again, last);
    steps := again + last;
  }

  /** Three sends complete and the receiver writes all three files, but recv yields true only twice. */
  lemma ThirdFileYieldsNothing(c: Config, first: Bytes, second: Bytes, third: Bytes) returns (t: System)
    requires RoomForTwo(c)
    ensures Reachable(c, t) && ReadyAtRest(c, t) && t.caller.files == [first, second, third]
    ensures t.receiver.out == first + second + third
    ensures t.yielded == [first, first + second]
  {
    var connect, s1 := Connect(c);
    var send, s2 := SendCanComplete(c, s1, first);
    assert s2.receiver.out == first;
    var rest;
    rest, t := LastTwoSends(c, s2, second, third);
    RunJoin(c, s1, send, rest);
    RunJoin(c, Init(c), connect, send + rest);
    assert CanRun(c, Init(c), connect + (send + rest));
  }
}

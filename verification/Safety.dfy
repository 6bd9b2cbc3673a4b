/** The invariant of every run: numbering, windows, acks, buffer and output. */
module Safety {
  import opened Options
  import opened Packets
  import opened Settings
  import opened SenderModel
  import opened System
  import opened ReceiverFacts
  import RM = ReceiverModel

  // ---- The parts of the invariant ----

  /** The kind of packet that send_packet is called with in each phase. */
  function PhaseKind(phase: Phase): Option<PacketKind> {
    match phase
    case Connecting => Some(ConnReq)
    case Pushing(_) => Some(DataPush)
    case Streaming(_, _) => Some(Data)
    case Stopping => Some(DataStop)
    case Disconnecting => Some(DisconnReq)
    case _ => None
  }

  predicate BeforeNumbering(stage: Stage) {
    stage.Waiting? || stage.Refused? || stage.Available? || stage.Numbered?
  }

  ghost predicate StageOk(caller: Caller, log: seq<Packet>) {
    var stage := caller.stage;
    stage == Outside ||
    (&& PhaseKind(caller.phase) == Some(stage.kind)
     && (stage.kind != Data ==> stage.payload == [])
     && (stage.Numbered? ==> stage.number == |log|)
     && (stage.Bumped? ==>
          && stage.number + 1 == |log|
          && log[stage.number] == Packet(VERSION, stage.kind, stage.number, stage.payload)))
  }

  /** The calling thread numbers packets one by one, ConnReq first and DisconnReq last. */
  ghost predicate NumberingOk(s: System) {
    && LogOk(s.log)
    && s.sender.upper == |s.log|
    && StageOk(s.caller, s.log)
    && (s.caller.phase == Fresh ==> s.log == [])
    && (s.caller.phase == Phase.Connecting && BeforeNumbering(s.caller.stage) ==> s.log == [])
    && (|s.log| > 0 && s.log[|s.log| - 1].kind == DisconnReq ==>
         s.caller.phase == Finished || (s.caller.phase == Phase.Disconnecting && !BeforeNumbering(s.caller.stage)))
  }

  /** Nothing but the first ConnReq exists until the receiver has taken it. */
  ghost predicate GateOk(s: System) {
    && (s.receiver.first == 0 ==>
      && s.caller.phase in {Fresh, Phase.Connecting, Finished} && |s.log| <= 1
      && s.sender.state in {SenderState.Idle, SenderState.Connecting}
      && s.acks == {} && s.listener == Listening)
  }

  /** The pool and the network hold packets of the log. */
  ghost predicate PacketsOk(s: System) {
    && (forall n :: n in s.sender.pool ==> n < |s.log| && s.sender.pool[n] == s.log[n])
    && (forall p :: p in s.data ==> InLog(s.log, p))
  }

  /** Acks in flight or in hand name what the receiver took, so the sender never slides past it. */
  ghost predicate AcksOk(c: Config, s: System) {
    && (forall a :: a in s.acks ==> Acknowledges(c, s.receiver, a.number))
    && (s.listener != Listening ==> Acknowledges(c, s.receiver, s.listener.ack.number))
    && (forall n :: n in s.sender.acked ==> c.selectiveRepeat && Holds(s.receiver, n))
    && s.sender.lower <= s.receiver.first
    && s.sender.lower !in s.sender.acked
  }

  ghost predicate Safe(c: Config, s: System) {
    && NumberingOk(s)
    && GateOk(s)
    && PacketsOk(s)
    && ReceiverOk(c, s.receiver, s.log)
    && AcksOk(c, s)
  }

  lemma InitSafe(c: Config)
    requires c.Valid()
    ensures Safe(c, Init(c))
  {}

  // ---- Preservation, thread by thread ----

  predicate CallerStep(step: Step) {
    step.StartConnect? || step.ConnectReturns? || step.StartSend? || step.PushReturns? || step.NextChunk?
    || step.EndOfStream? || step.SeeZero? || step.SeeNonZero? || step.DrainAgain? || step.CancelSend?
    || step.BeginStop? || step.StopReturns? || step.StartDisconnect? || step.DisconnectReturns?
    || step.SeeWindow? || step.SeeFullWindow? || step.WaitAgain? || step.ReturnUnsent? || step.ReadUpper?
  }

  /** The steps that ask send_packet for a packet. */
  predicate IsCall(step: Step) {
    step.StartConnect? || step.StartSend? || step.NextChunk? || step.BeginStop? || step.StartDisconnect?
  }

  /** What the calling thread's steps other than numbering and inserting leave alone. */
  lemma CallerStepsTouchNoNumber(c: Config, s: System, step: Step)
    requires Enabled(c, s, step) && CallerStep(step)
    ensures var s' := Do(c, s, step);
      && s' == s.(caller := s'.caller, sender := s.sender.(state := s'.sender.state))
  {}

  lemma CallerStepSafe(c: Config, s: System, step: Step)
    requires c.Valid() && Safe(c, s) && Enabled(c, s, step) && CallerStep(step)
    ensures Safe(c, Do(c, s, step))
  {
    var s' := Do(c, s, step);
    CallerStepsTouchNoNumber(c, s, step);
    CallerStepNumbering(c, s, step);
    CallerStepGate(c, s, step);
  }

  /** The caller's place agrees with the log, without looking into the log's packets. */
  lemma CallerStepStage(c: Config, s: System, step: Step)
    requires Enabled(c, s, step) && CallerStep(step)
    requires StageOk(s.caller, s.log) && s.sender.upper == |s.log|
    requires s.caller.phase == Fresh ==> s.log == []
    requires s.caller.phase == Phase.Connecting && BeforeNumbering(s.caller.stage) ==> s.log == []
    ensures var t := Do(c, s, step);
      && StageOk(t.caller, s.log)
      && (t.caller.phase == Fresh ==> s.log == [])
      && (t.caller.phase == Phase.Connecting && BeforeNumbering(t.caller.stage) ==> s.log == [])
  {
    if IsCall(step) {
      CallStage(c, s, step);
    } else {
      ReturnStage(c, s, step);
    }
  }

  lemma CallStage(c: Config, s: System, step: Step)
    requires Enabled(c, s, step) && CallerStep(step) && IsCall(step)
    requires StageOk(s.caller, s.log) && s.sender.upper == |s.log|
    requires s.caller.phase == Fresh ==> s.log == []
    requires s.caller.phase == Phase.Connecting && BeforeNumbering(s.caller.stage) ==> s.log == []
    ensures var t := Do(c, s, step);
      && StageOk(t.caller, s.log)
      && (t.caller.phase == Fresh ==> s.log == [])
      && (t.caller.phase == Phase.Connecting && BeforeNumbering(t.caller.stage) ==> s.log == [])
  {}

  lemma ReturnStage(c: Config, s: System, step: Step)
    requires Enabled(c, s, step) && CallerStep(step) && !IsCall(step)
    requires StageOk(s.caller, s.log) && s.sender.upper == |s.log|
    requires s.caller.phase == Fresh ==> s.log == []
    requires s.caller.phase == Phase.Connecting && BeforeNumbering(s.caller.stage) ==> s.log == []
    ensures var t := Do(c, s, step);
      && StageOk(t.caller, s.log)
      && (t.caller.phase == Fresh ==> s.log == [])
      && (t.caller.phase == Phase.Connecting && BeforeNumbering(t.caller.stage) ==> s.log == [])
  {}

  lemma CallerStepNumbering(c: Config, s: System, step: Step)
    requires c.Valid() && Safe(c, s) && Enabled(c, s, step) && CallerStep(step)
    ensures NumberingOk(Do(c, s, step))
  {
    CallerStepsTouchNoNumber(c, s, step);
    CallerStepStage(c, s, step);
  }

  lemma CallerStepGate(c: Config, s: System, step: Step)
    requires c.Valid() && Safe(c, s) && Enabled(c, s, step) && CallerStep(step)
    ensures GateOk(Do(c, s, step))
  {}

  /** A longer log keeps everything that was true of the shorter one. */
  lemma LongerLog(c: Config, r: RM.Receiver, log: seq<Packet>, p: Packet)
    requires ReceiverOk(c, r, log) && !EarlyIdle(c, r, log)
    ensures ReceiverOk(c, r, log + [p])
  {
    assert (log + [p])[..r.first] == log[..r.first];
  }

  lemma BumpUpperNumbers(c: Config, s: System)
    requires c.Valid() && Safe(c, s) && Enabled(c, s, BumpUpper)
    ensures NumberingOk(Do(c, s, BumpUpper)) && GateOk(Do(c, s, BumpUpper)) && PacketsOk(Do(c, s, BumpUpper))
  {
    var stage := s.caller.stage;
    NumberedLogOk(s.log, Packet(VERSION, stage.kind, stage.number, stage.payload));
  }

  lemma BumpUpperSafe(c: Config, s: System)
    requires c.Valid() && Safe(c, s) && Enabled(c, s, BumpUpper)
    ensures Safe(c, Do(c, s, BumpUpper))
  {
    var stage := s.caller.stage;
    assert !EarlyIdle(c, s.receiver, s.log);
    LongerLog(c, s.receiver, s.log, Packet(VERSION, stage.kind, stage.number, stage.payload));
    BumpUpperNumbers(c, s);
  }

  lemma NumberedLogOk(log: seq<Packet>, p: Packet)
    requires LogOk(log) && (|log| > 0 ==> log[|log| - 1].kind != DisconnReq)
    requires p.version == VERSION && p.number == |log| && IsRequest(p.kind)
    requires p.kind != Data ==> p.payload == []
    requires p.kind == ConnReq <==> |log| == 0
    ensures LogOk(log + [p])
  {}

  lemma InsertKeepsPackets(c: Config, s: System)
    requires PacketsOk(s) && StageOk(s.caller, s.log) && Enabled(c, s, Insert)
    ensures var s' := Do(c, s, Insert);
      && PacketsOk(s')
      && s' == s.(caller := s.caller.(stage := Outside),
                  sender := s.sender.(pool := s'.sender.pool, pending := s'.sender.pending))
  {}

  lemma InsertSafe(c: Config, s: System)
    requires c.Valid() && Safe(c, s) && Enabled(c, s, Insert)
    ensures Safe(c, Do(c, s, Insert))
  {
    InsertKeepsPackets(c, s);
    InsertFrame(c, s, Do(c, s, Insert));
  }

  lemma InsertFrame(c: Config, s: System, t: System)
    requires Safe(c, s) && s.caller.stage.Bumped? && PacketsOk(t)
    requires t == s.(sender := s.sender.(pool := t.sender.pool, pending := t.sender.pending),
                     caller := s.caller.(stage := Outside))
    ensures Safe(c, t)
  {}

  predicate SenderThreadStep(step: Step) {
    step.Pop? || step.Process? || step.Fire? || step.Repend?
  }

  lemma ProcessKeepsPackets(c: Config, s: System, now: int)
    requires LogOk(s.log) && PacketsOk(s) && Enabled(c, s, Process(now))
    ensures PacketsOk(Do(c, s, Process(now)))
  {
    var n := s.held.value;
    var s' := ProcessPopped(c, s.sender, n, now);
    assert s'.pool == s.sender.pool || s'.pool == s.sender.pool - {n};
  }

  /** What send_handler and the two timer threads leave alone. */
  lemma SenderThreadsTouchNoWindow(c: Config, s: System, step: Step)
    requires LogOk(s.log) && PacketsOk(s) && Enabled(c, s, step) && SenderThreadStep(step)
    ensures var s' := Do(c, s, step);
      && s' == s.(sender := s'.sender, held := s'.held, data := s'.data, clock := s'.clock, abandoned := s'.abandoned)
      && s'.sender.lower == s.sender.lower && s'.sender.upper == s.sender.upper && s'.sender.acked == s.sender.acked
      && s'.sender.dups == s.sender.dups
      && (s.receiver.first == 0 && GateOk(s) ==> s'.sender.state in {SenderState.Idle, SenderState.Connecting})
      && PacketsOk(s')
  {
    if step.Process? {
      ProcessKeepsPackets(c, s, step.now);
    }
  }

  lemma SenderThreadStepSafe(c: Config, s: System, step: Step)
    requires c.Valid() && Safe(c, s) && Enabled(c, s, step) && SenderThreadStep(step)
    ensures Safe(c, Do(c, s, step))
  {
    SenderThreadsTouchNoWindow(c, s, step);
  }

  predicate ListenerStep(step: Step) {
    step.Hear? || step.WriteState?
  }

  lemma ListenerStepsTouchNoWindow(c: Config, s: System, step: Step)
    requires Enabled(c, s, step) && ListenerStep(step)
    ensures var s' := Do(c, s, step);
      && s' == s.(listener := s'.listener, sender := s.sender.(state := s'.sender.state))
      && (step.Hear? ==> s'.listener.ack == step.ack && s'.sender == s.sender)
      && (step.WriteState? ==> s'.listener.ack == s.listener.ack)
      && s'.listener != Listening
  {}

  lemma ListenerStepSafe(c: Config, s: System, step: Step)
    requires c.Valid() && Safe(c, s) && Enabled(c, s, step) && ListenerStep(step)
    ensures Safe(c, Do(c, s, step))
  {
    ListenerStepsTouchNoWindow(c, s, step);
    assert s.receiver.first > 0;
    ListenerFrame(c, s, Do(c, s, step));
  }

  lemma ListenerFrame(c: Config, s: System, t: System)
    requires Safe(c, s) && s.receiver.first > 0
    requires t == s.(listener := t.listener, sender := s.sender.(state := t.sender.state))
    requires t.listener != Listening ==> Acknowledges(c, s.receiver, t.listener.ack.number)
    ensures Safe(c, t)
  {}

  /** Neither ack discipline slides the window past what the receiver has written. */
  lemma AcknowledgeKeepsOrder(c: Config, s: Sender, r: RM.Receiver, n: nat)
    requires s.lower <= r.first && s.lower !in s.acked
    requires forall m :: m in r.buffer ==> r.first < m
    requires forall m :: m in s.acked ==> c.selectiveRepeat && Holds(r, m)
    requires Acknowledges(c, r, n)
    ensures var s' := Acknowledge(c, s, n);
      && s.lower <= s'.lower <= r.first && s'.lower !in s'.acked
      && (forall m :: m in s'.acked ==> c.selectiveRepeat && Holds(r, m))
      && s'.upper == s.upper && s'.pool == s.pool && s'.state == s.state
  {
    if c.selectiveRepeat {
      SlideStops(s.(acked := s.acked + {n}), r.first);
    }
  }

  lemma AckSafe(c: Config, s: System)
    requires c.Valid() && Safe(c, s) && Enabled(c, s, Ack)
    ensures Safe(c, Do(c, s, Ack))
  {
    AcknowledgeKeepsOrder(c, s.sender, s.receiver, s.listener.ack.number);
    AckFrame(c, s, Do(c, s, Ack));
  }

  lemma AckFrame(c: Config, s: System, t: System)
    requires Safe(c, s) && t == s.(sender := t.sender, listener := Listening)
    requires t.sender.lower <= s.receiver.first && t.sender.lower !in t.sender.acked
    requires forall m :: m in t.sender.acked ==> c.selectiveRepeat && Holds(s.receiver, m)
    requires t.sender.upper == s.sender.upper && t.sender.pool == s.sender.pool && t.sender.state == s.sender.state
    ensures Safe(c, t)
  {}

  /** What one datagram of the log does to a receiver that does not misstep. */
  lemma ReceiveKeeps(c: Config, r: RM.Receiver, p: Packet, log: seq<Packet>)
    requires c.Valid() && LogOk(log) && ReceiverOk(c, r, log) && InLog(log, p)
    requires r.first == 0 ==> |log| <= 1
    requires !Missteps(r, p)
    ensures var reply := RM.Receive(c, r, p);
      && ReceiverOk(c, reply.receiver, log)
      && r.first <= reply.receiver.first && reply.receiver.first > 0
      && (forall n: nat :: Holds(r, n) ==> Holds(reply.receiver, n))
      && (reply.ack.Some? ==> Acknowledges(c, reply.receiver, reply.ack.value.number))
  {
    if !r.done && !RM.IsOld(r, p) && !RM.IsBeyond(r, p) {
      AcceptKeeps(c, r, p, log);
    }
  }

  lemma DeliveryTouchesNoSender(c: Config, s: System, p: Packet)
    requires Enabled(c, s, Deliver(p))
    ensures var s', reply := Do(c, s, Deliver(p)), RM.Receive(c, s.receiver, p);
      && s' == s.(receiver := reply.receiver, acks := s'.acks, yielded := s'.yielded, finished := s'.finished,
                  misstep := s'.misstep)
      && s'.acks == (if reply.ack.Some? then s.acks + {reply.ack.value} else s.acks)
  {}

  lemma DeliveryKeepsAcks(c: Config, s: System, p: Packet)
    requires c.Valid() && Safe(c, s) && Enabled(c, s, Deliver(p))
    requires !Missteps(s.receiver, p)
    ensures AcksOk(c, Do(c, s, Deliver(p)))
  {
    ReceiveKeeps(c, s.receiver, p, s.log);
    DeliveryTouchesNoSender(c, s, p);
    var s' := Do(c, s, Deliver(p));
    forall n: nat | Acknowledges(c, s.receiver, n)
      ensures Acknowledges(c, s'.receiver, n)
    {
      assert c.selectiveRepeat ==> Holds(s.receiver, n);
    }
  }

  lemma DeliveryKeepsGate(c: Config, s: System, p: Packet)
    requires NumberingOk(s) && GateOk(s) && PacketsOk(s) && Enabled(c, s, Deliver(p))
    requires RM.Receive(c, s.receiver, p).receiver.first > 0
    ensures var t := Do(c, s, Deliver(p)); NumberingOk(t) && GateOk(t) && PacketsOk(t)
  {
    DeliveryTouchesNoSender(c, s, p);
  }

  lemma DeliverSafe(c: Config, s: System, p: Packet)
    requires c.Valid() && Safe(c, s) && Enabled(c, s, Deliver(p))
    requires !Missteps(s.receiver, p)
    ensures Safe(c, Do(c, s, Deliver(p)))
    ensures s.receiver.first <= Do(c, s, Deliver(p)).receiver.first
  {
    ReceiveKeeps(c, s.receiver, p, s.log);
    DeliveryKeepsGate(c, s, p);
    DeliveryKeepsAcks(c, s, p);
  }

  lemma LoseSafe(c: Config, s: System, step: Step)
    requires Safe(c, s) && Enabled(c, s, step) && step.Lose?
    ensures Safe(c, Do(c, s, step))
  {}

  lemma StepSafe(c: Config, s: System, step: Step)
    requires c.Valid() && Safe(c, s) && Enabled(c, s, step)
    requires step.Deliver? ==> !Missteps(s.receiver, step.packet)
    ensures Safe(c, Do(c, s, step))
  {
    if CallerStep(step) {
      CallerStepSafe(c, s, step);
    } else if SenderThreadStep(step) {
      SenderThreadStepSafe(c, s, step);
    } else if ListenerStep(step) {
      ListenerStepSafe(c, s, step);
    } else {
      match step
      case BumpUpper => BumpUpperSafe(c, s);
      case Insert => InsertSafe(c, s);
      case Ack => AckSafe(c, s);
      case Deliver(p) => DeliverSafe(c, s, p);
      case Lose(_, _) => LoseSafe(c, s, step);
    }
  }
}

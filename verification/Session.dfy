/** One session with at most one `send`: connect, send, disconnect. */
module Session {
  import opened Options
  import opened Packets
  import opened Settings
  import opened SenderModel
  import opened System
  import opened ReceiverFacts
  import opened Safety
  import RM = ReceiverModel

  // ---- The shape of the log ----

  /** Where DataStop is in the log, or -1. Only a DisconnReq can follow it. */
  function StopIndex(log: seq<Packet>): int {
    if |log| >= 1 && log[|log| - 1].kind == DataStop then |log| - 1
    else if |log| >= 2 && log[|log| - 2].kind == DataStop then |log| - 2
    else -1
  }

  predicate HasStop(log: seq<Packet>) {
    StopIndex(log) >= 0
  }

  predicate Disconnects(log: seq<Packet>) {
    |log| > 0 && log[|log| - 1].kind == DisconnReq
  }

  /** ConnReq, then DataPush, Data packets and DataStop as far as the session got, then DisconnReq. */
  ghost predicate Shape(log: seq<Packet>) {
    && (|log| >= 2 ==> log[1].kind in {DataPush, DisconnReq})
    && (forall i :: 0 <= i < |log| && log[i].kind == DataPush ==> i == 1)
    && (forall i :: 0 <= i < |log| && log[i].kind == DataStop ==> i == StopIndex(log))
    && (HasStop(log) && StopIndex(log) < |log| - 1 ==> Disconnects(log))
  }

  /** Only the last packet can be a DisconnReq. */
  lemma DisconnReqIsLast(log: seq<Packet>, p: Packet)
    requires LogOk(log) && InLog(log, p) && p.kind == DisconnReq
    ensures p.number == |log| - 1 && Disconnects(log)
  {
    assert log[p.number].kind == DisconnReq;
  }

  predicate Transferring(phase: Phase) {
    phase.Streaming? || phase in {Draining, Undrained, Drained, Phase.Stopping}
  }

  /** Each phase begins from the log that the earlier ones made: its length, whether it has a DataStop,
      whether it ends the connection. */
  predicate PhaseOk(caller: Caller, size: nat, stops: bool, disconnects: bool) {
    var phase, stage := caller.phase, caller.stage;
    && |caller.files| <= 1
    && (phase in {Fresh, Phase.Connecting} ==> caller.files == [] && size <= 1)
    && (caller.files == [] ==> size <= 1 || disconnects)
    && (phase.Pushing? ==>
         && caller.files == [phase.file] && size <= 2
         && (BeforeNumbering(stage) ==> size == 1))
    && (Transferring(phase) ==> |caller.files| == 1 && size >= 2 && !disconnects)
    && (Transferring(phase) && stops ==> phase == Phase.Stopping && !BeforeNumbering(stage))
    && (phase == Ready ==> size >= 1 && !disconnects)
  }

  ghost predicate ShapeOk(s: System) {
    && Shape(s.log)
    && PhaseOk(s.caller, |s.log|, HasStop(s.log), Disconnects(s.log))
  }

  /** No Data exists until the receiver has taken DataPush. */
  ghost predicate PushGate(s: System) {
    s.receiver.first < 2 ==>
      && (forall a :: a in s.acks ==> a.kind != DataPushAck)
      && !(s.listener.Deciding? && s.listener.target == SenderState.Sending)
      && s.sender.state != SenderState.Sending
      && !Transferring(s.caller.phase)
      && (|s.log| <= 2 || (|s.log| == 3 && Disconnects(s.log)))
  }

  /** Everything before DataStop has been delivered when it is numbered. */
  ghost predicate DrainOk(s: System) {
    && (s.caller.phase in {Drained, Phase.Stopping} && !HasStop(s.log) ==> s.receiver.first == |s.log|)
    && StopIndex(s.log) <= s.receiver.first
  }

  predicate PastStop(s: System) {
    HasStop(s.log) && s.receiver.first > StopIndex(s.log)
  }

  ghost predicate ReceiverStateOk(s: System) {
    !s.receiver.done && s.receiver.state == RM.Connected && s.receiver.first >= 2 ==> PastStop(s)
  }

  ghost predicate ShapeSafe(s: System) {
    ShapeOk(s) && PushGate(s) && DrainOk(s) && ReceiverStateOk(s)
  }

  // ---- Steps of the sender's side ----

  /** What the caller's steps rely on, without the quantifiers of the invariant. */
  predicate PhaseFacts(s: System) {
    var phase := s.caller.phase;
    && PhaseOk(s.caller, |s.log|, HasStop(s.log), Disconnects(s.log))
    && (phase in {Fresh, Phase.Connecting, Finished} || s.receiver.first >= 2 || !Transferring(phase))
    && (phase == Phase.Connecting && s.sender.state == SenderState.Connected ==> |s.log| >= 1 && !Disconnects(s.log))
    && (phase.Pushing? ==> !HasStop(s.log) && (s.sender.state == SenderState.Sending ==> |s.log| >= 2))
    && (Disconnects(s.log) ==> phase in {Finished, Phase.Disconnecting})
    && (phase !in {Fresh, Phase.Connecting, Finished} ==> |s.log| >= 1)
  }

  lemma CallPhase(c: Config, s: System, step: Step)
    requires Enabled(c, s, step) && CallerStep(step) && IsCall(step)
    requires PhaseFacts(s) && |Do(c, s, step).caller.files| <= 1
    ensures var s' := Do(c, s, step); PhaseOk(s'.caller, |s.log|, HasStop(s.log), Disconnects(s.log))
  {}

  lemma ReturnPhase(c: Config, s: System, step: Step)
    requires Enabled(c, s, step) && CallerStep(step) && !IsCall(step)
    requires PhaseFacts(s) && |Do(c, s, step).caller.files| <= 1
    ensures var s' := Do(c, s, step); PhaseOk(s'.caller, |s.log|, HasStop(s.log), Disconnects(s.log))
  {}

  lemma CallerStepPhase(c: Config, s: System, step: Step)
    requires Enabled(c, s, step) && CallerStep(step)
    requires PhaseFacts(s) && |Do(c, s, step).caller.files| <= 1
    ensures var s' := Do(c, s, step); PhaseOk(s'.caller, |s.log|, HasStop(s.log), Disconnects(s.log))
  {
    if IsCall(step) {
      CallPhase(c, s, step);
    } else {
      ReturnPhase(c, s, step);
    }
  }

  lemma CallerStepShape(c: Config, s: System, step: Step)
    requires c.Valid() && Safe(c, s) && ShapeSafe(s) && Enabled(c, s, step) && CallerStep(step)
    requires |Do(c, s, step).caller.files| <= 1
    ensures ShapeOk(Do(c, s, step))
  {
    CallerStepsTouchNoNumber(c, s, step);
    FactsHold(c, s);
    CallerStepPhase(c, s, step);
  }

  lemma FactsHold(c: Config, s: System)
    requires Safe(c, s) && ShapeSafe(s)
    ensures PhaseFacts(s)
  {
    assert s.receiver.first <= |s.log|;
    assert s.caller.phase.Pushing? ==> |s.log| <= 2;
  }

  lemma CallerStepPushGate(c: Config, s: System, step: Step)
    requires GateOk(s) && PushGate(s) && Enabled(c, s, step) && CallerStep(step)
    ensures PushGate(Do(c, s, step))
  {
    CallerStepsTouchNoNumber(c, s, step);
  }

  lemma CallerStepDrain(c: Config, s: System, step: Step)
    requires s.sender.lower <= s.receiver.first <= |s.log| == s.sender.upper
    requires DrainOk(s) && ReceiverStateOk(s) && Enabled(c, s, step) && CallerStep(step)
    ensures DrainOk(Do(c, s, step)) && ReceiverStateOk(Do(c, s, step))
  {
    CallerStepsTouchNoNumber(c, s, step);
  }

  lemma NumberedShape(log: seq<Packet>, p: Packet)
    requires Shape(log) && !Disconnects(log)
    requires HasStop(log) ==> p.kind == DisconnReq
    requires |log| == 1 ==> p.kind in {DataPush, DisconnReq}
    requires p.kind == DataPush ==> |log| == 1
    ensures Shape(log + [p])
    ensures StopIndex(log + [p]) == if p.kind == DataStop then |log| else StopIndex(log)
    ensures Disconnects(log + [p]) <==> p.kind == DisconnReq
  {}

  ghost function NextPacket(s: System): Packet
    requires s.caller.stage.Numbered?
  {
    Packet(VERSION, s.caller.stage.kind, s.caller.stage.number, s.caller.stage.payload)
  }

  /** What the numbering step may rely on, without the quantifiers of the invariant. */
  lemma BeforeBump(c: Config, s: System)
    requires c.Valid() && Safe(c, s) && ShapeSafe(s) && Enabled(c, s, BumpUpper)
    ensures PhaseKind(s.caller.phase) == Some(s.caller.stage.kind)
    ensures !Disconnects(s.log) && (HasStop(s.log) ==> s.caller.phase == Phase.Disconnecting)
    ensures |s.log| == 0 <==> s.caller.phase == Phase.Connecting
  {
    assert |s.log| == 1 ==> s.log[0].kind == ConnReq;
  }

  lemma BumpUpperPhase(c: Config, s: System)
    requires Enabled(c, s, BumpUpper) && ShapeOk(s)
    requires PhaseKind(s.caller.phase) == Some(s.caller.stage.kind)
    requires !Disconnects(s.log) && (HasStop(s.log) ==> s.caller.phase == Phase.Disconnecting)
    requires |s.log| == 0 <==> s.caller.phase == Phase.Connecting
    ensures ShapeOk(Do(c, s, BumpUpper))
    ensures StopIndex(s.log + [NextPacket(s)]) == if s.caller.phase == Phase.Stopping then |s.log| else StopIndex(s.log)
    ensures Disconnects(s.log + [NextPacket(s)]) <==> s.caller.phase == Phase.Disconnecting
  {
    NumberedShape(s.log, NextPacket(s));
  }

  ghost predicate Numbers(s: System, s': System, p: Packet) {
    && s'.receiver == s.receiver && s'.acks == s.acks && s'.listener == s.listener && s'.log == s.log + [p]
    && s'.caller.phase == s.caller.phase && s'.sender.state == s.sender.state
    && StopIndex(s'.log) == (if s.caller.phase == Phase.Stopping then |s.log| else StopIndex(s.log))
    && (Disconnects(s'.log) <==> s.caller.phase == Phase.Disconnecting)
  }

  lemma NumberingKeepsDrain(s: System, s': System, p: Packet)
    requires DrainOk(s) && ReceiverStateOk(s) && Numbers(s, s', p)
    requires PhaseKind(s.caller.phase).Some? && (s.caller.phase == Phase.Stopping ==> !HasStop(s.log))
    ensures DrainOk(s') && ReceiverStateOk(s')
  {}

  lemma NumberingKeepsPushGate(s: System, s': System, p: Packet)
    requires PushGate(s) && Numbers(s, s', p) && BeforeNumbering(s.caller.stage)
    requires PhaseOk(s.caller, |s.log|, HasStop(s.log), Disconnects(s.log)) && !Disconnects(s.log)
    requires PhaseKind(s.caller.phase).Some?
    ensures PushGate(s')
  {}

  lemma BumpUpperGates(c: Config, s: System)
    requires c.Valid() && Safe(c, s) && ShapeSafe(s) && Enabled(c, s, BumpUpper)
    ensures var s' := Do(c, s, BumpUpper); PushGate(s') && DrainOk(s') && ReceiverStateOk(s')
  {
    BeforeBump(c, s);
    BumpUpperPhase(c, s);
    var s' := Do(c, s, BumpUpper);
    assert Numbers(s, s', NextPacket(s));
    NumberingKeepsDrain(s, s', NextPacket(s));
    NumberingKeepsPushGate(s, s', NextPacket(s));
  }

  lemma BumpUpperShape(c: Config, s: System)
    requires c.Valid() && Safe(c, s) && ShapeSafe(s) && Enabled(c, s, BumpUpper)
    ensures ShapeSafe(Do(c, s, BumpUpper))
  {
    BeforeBump(c, s);
    BumpUpperPhase(c, s);
    BumpUpperGates(c, s);
  }

  lemma ShapeFrame(s: System, t: System)
    requires ShapeSafe(s)
    requires t.log == s.log && t.receiver == s.receiver && t.acks <= s.acks
    requires t.caller == s.caller || (t.caller == s.caller.(stage := Outside) && !BeforeNumbering(s.caller.stage))
    requires s.receiver.first < 2 ==>
      && (t.sender.state == SenderState.Sending ==> s.sender.state == SenderState.Sending)
      && !(t.listener.Deciding? && t.listener.target == SenderState.Sending)
    ensures ShapeSafe(t)
  {}

  /** The steps of the sender's threads, its listener and the loss of packets leave the session's shape. */
  lemma SenderSideShape(c: Config, s: System, step: Step)
    requires ShapeSafe(s) && Enabled(c, s, step)
    requires SenderThreadStep(step) || ListenerStep(step) || step.Insert? || step.Ack? || step.Lose?
    ensures ShapeSafe(Do(c, s, step))
  {
    if SenderThreadStep(step) {
      GiveUpSendsNothing(c, s, step);
    } else if step.Ack? {
      SlideKeepsState(c, s);
    } else if ListenerStep(step) {
      ListenerStepsTouchNoWindow(c, s, step);
      if s.receiver.first < 2 {
        HeardPush(c, s, step);
      }
    }
    ShapeFrame(s, Do(c, s, step));
  }

  lemma HeardPush(c: Config, s: System, step: Step)
    requires PushGate(s) && Enabled(c, s, step) && ListenerStep(step) && s.receiver.first < 2
    ensures var t := Do(c, s, step);
      && (t.sender.state == SenderState.Sending ==> s.sender.state == SenderState.Sending)
      && !(t.listener.Deciding? && t.listener.target == SenderState.Sending)
  {}

  lemma SlideKeepsState(c: Config, s: System)
    requires Enabled(c, s, Ack)
    ensures Do(c, s, Ack).sender.state == s.sender.state
  {}

  lemma GiveUpSendsNothing(c: Config, s: System, step: Step)
    requires Enabled(c, s, step) && SenderThreadStep(step)
    ensures var t := Do(c, s, step);
      && (t.sender.state == SenderState.Sending ==> s.sender.state == SenderState.Sending)
      && t.log == s.log && t.receiver == s.receiver && t.caller == s.caller
      && t.acks == s.acks && t.listener == s.listener
  {}

  // ---- Deliveries ----

  /** A packet that is delivered and not held back is written. */
  lemma DeliveredIsTaken(c: Config, r: RM.Receiver, p: Packet, log: seq<Packet>)
    requires c.Valid() && LogOk(log) && ReceiverOk(c, r, log) && InLog(log, p)
    requires r.first == 0 ==> |log| <= 1
    requires !r.done && p.number <= r.first && !Missteps(r, p)
    ensures RM.Receive(c, r, p).receiver.first > p.number
  {
    if !RM.IsOld(r, p) && !RM.IsBeyond(r, p) {
      AcceptKeeps(c, r, p, log);
    }
  }

  lemma NoMisstepInSession(c: Config, s: System, p: Packet)
    requires c.Valid() && Safe(c, s) && ShapeSafe(s) && Enabled(c, s, Deliver(p))
    ensures !Missteps(s.receiver, p)
  {
    if s.receiver.state == RM.Connected && p.kind == DisconnReq && p.number > 2 {
      assert p.number == |s.log| - 1;
    }
  }

  /** The receiver is connected past number 1 only by writing DataStop. */
  lemma ConnectedAgainByStop(c: Config, r: RM.Receiver, p: Packet, log: seq<Packet>)
    requires c.Valid() && LogOk(log) && Shape(log) && ReceiverOk(c, r, log) && InLog(log, p)
    requires r.first == 0 ==> |log| <= 1
    requires !r.done && !RM.IsOld(r, p) && !RM.IsBeyond(r, p) && !Missteps(r, p)
    requires StopIndex(log) <= r.first
    requires r.state == RM.Connected && r.first >= 2 ==> HasStop(log) && r.first > StopIndex(log)
    ensures var r' := RM.Accept(c, r, p).receiver;
      !r'.done && r'.state == RM.Connected && r'.first >= 2 ==> HasStop(log) && r'.first > StopIndex(log)
  {
    AcceptKeeps(c, r, p, log);
    BufferMatches(c, r, p, log);
    var r2 := RM.Buffer(RM.Transition(c, r, p), p);
    SlideDelivers(r2, log);
    var r' := RM.Accept(c, r, p).receiver;
    if r'.state == RM.Connected && r'.first >= 2 && p.kind != DataStop && r.first < 2 {
      assert 1 in r2.buffer;
      assert p.number == 1;
    }
  }

  lemma DeliverReceiverState(c: Config, s: System, p: Packet)
    requires c.Valid() && Safe(c, s) && ShapeSafe(s) && Enabled(c, s, Deliver(p))
    ensures ReceiverStateOk(Do(c, s, Deliver(p)))
  {
    NoMisstepInSession(c, s, p);
    var r := s.receiver;
    DeliveryTouchesNoSender(c, s, p);
    ReceiveKeeps(c, r, p, s.log);
    if !r.done && !RM.IsOld(r, p) && !RM.IsBeyond(r, p) {
      ConnectedAgainByStop(c, r, p, s.log);
    }
  }

  lemma PushIsWrittenFrom(c: Config, r: RM.Receiver, p: Packet, log: seq<Packet>)
    requires c.Valid() && LogOk(log) && Shape(log) && ReceiverOk(c, r, log) && InLog(log, p)
    requires r.first == 0 ==> |log| <= 1
    requires !r.done && p.kind == DataPush
    ensures RM.Receive(c, r, p).receiver.first >= 2
  {
    assert log[p.number].kind == DataPush;
    DeliveredIsTaken(c, r, p, log);
  }

  /** DataPush is acked only when it has been written. */
  lemma PushIsWritten(c: Config, s: System, p: Packet)
    requires c.Valid() && Safe(c, s) && ShapeSafe(s) && Enabled(c, s, Deliver(p)) && !Missteps(s.receiver, p)
    ensures var reply := RM.Receive(c, s.receiver, p);
      reply.ack.Some? && reply.ack.value.kind == DataPushAck ==> reply.receiver.first >= 2
  {
    AckKindMatches(c, s.receiver, p);
    if p.kind == DataPush && !s.receiver.done {
      PushIsWrittenFrom(c, s.receiver, p, s.log);
    }
  }

  lemma DeliverPushGate(c: Config, s: System, p: Packet)
    requires PushGate(s) && Enabled(c, s, Deliver(p))
    requires var reply := RM.Receive(c, s.receiver, p);
      && s.receiver.first <= reply.receiver.first
      && (reply.ack.Some? && reply.ack.value.kind == DataPushAck ==> reply.receiver.first >= 2)
    ensures PushGate(Do(c, s, Deliver(p)))
  {
    DeliveryTouchesNoSender(c, s, p);
  }

  lemma AckKindMatches(c: Config, r: RM.Receiver, p: Packet)
    requires IsRequest(p.kind)
    ensures var ack := RM.Receive(c, r, p).ack;
      ack.Some? ==> !r.done && GetAckKind(p.kind) == Some(ack.value.kind)
  {}

  lemma DeliverShape(c: Config, s: System, p: Packet)
    requires c.Valid() && Safe(c, s) && ShapeSafe(s) && Enabled(c, s, Deliver(p))
    ensures ShapeSafe(Do(c, s, Deliver(p)))
  {
    NoMisstepInSession(c, s, p);
    DeliveryTouchesNoSender(c, s, p);
    ReceiveKeeps(c, s.receiver, p, s.log);
    DeliverReceiverState(c, s, p);
    PushIsWritten(c, s, p);
    DeliverPushGate(c, s, p);
  }

  lemma StepShape(c: Config, s: System, step: Step)
    requires c.Valid() && Safe(c, s) && ShapeSafe(s) && Enabled(c, s, step)
    requires |Do(c, s, step).caller.files| <= 1
    ensures ShapeSafe(Do(c, s, step))
    ensures step.Deliver? ==> !Missteps(s.receiver, step.packet)
  {
    if CallerStep(step) {
      CallerStepShape(c, s, step);
      CallerStepPushGate(c, s, step);
      CallerStepDrain(c, s, step);
    } else if step.BumpUpper? {
      BumpUpperShape(c, s);
    } else if step.Deliver? {
      NoMisstepInSession(c, s, step.packet);
      DeliverShape(c, s, step.packet);
    } else {
      SenderSideShape(c, s, step);
    }
  }
}

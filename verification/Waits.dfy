/** What ends the waits of connect, send and disconnect: the ack of the packet that the call numbered, or a
    retry limit. */
module Waits {
  import opened Packets
  import opened Settings
  import opened SenderModel
  import opened System
  import opened SenderFacts
  import opened Safety
  import opened Session
  import opened FileTransfer
  import opened ControlOrder
  import opened SenderSteps
  import RM = ReceiverModel

  // ---- A retry limit ----

  /** A met limit ends the wait that it belongs to: the caller's next step can return, connect and disconnect
      for good, and a send to where the next call can begin. In a state that waits for nothing it stops the
      sender. */
  lemma LimitEndsTheWait(c: Config, s: System, now: int)
    requires Enabled(c, s, Process(now)) && Unsettled(c, s, s.held.value) && s.sender.lower != s.sender.upper
    requires AtLimit(c, s, s.held.value)
    ensures var t := Do(c, s, Process(now));
      && (AtPhase(s, Phase.Connecting) && s.sender.state == SenderState.Connecting ==>
           Enabled(c, t, ConnectReturns) && Do(c, t, ConnectReturns).caller.phase == Finished)
      && (s.caller.stage == Outside && s.caller.phase.Pushing? && s.sender.state == SenderState.Pushing ==>
           Enabled(c, t, PushReturns) && Do(c, t, PushReturns).caller.phase == Ready)
      && (AtPhase(s, Phase.Stopping) && s.sender.state == SenderState.Stopping ==>
           Enabled(c, t, StopReturns) && Do(c, t, StopReturns).caller.phase == Ready)
      && (AtPhase(s, Phase.Disconnecting) && s.sender.state == SenderState.Disconnecting ==>
           Enabled(c, t, DisconnectReturns) && Do(c, t, DisconnectReturns).caller.phase == Finished)
      && (s.sender.state in {SenderState.Idle, SenderState.Connected, SenderState.Sending} ==> !t.sender.running)
  {
    LimitSendsNothing(c, s, now);
  }

  // ---- An ack ----

  /** The ack kind that each wait is for, and the state that it leads to. */
  predicate OwnAck(state: SenderState, kind: PacketKind, target: SenderState) {
    || (state == SenderState.Connecting && kind == ConnAck && target == SenderState.Connected)
    || (state == SenderState.Pushing && kind == DataPushAck && target == SenderState.Sending)
    || (state == SenderState.Stopping && kind == DataStopAck && target == SenderState.Connected)
    || (state == SenderState.Disconnecting && kind == DisconnAck && target == SenderState.Idle)
  }

  /** recv_handler decides to write a state exactly when it reads a state that waits for this kind. */
  lemma HearDecidesExactly(c: Config, s: System, ack: Packet)
    requires Enabled(c, s, Hear(ack))
    ensures var t := Do(c, s, Hear(ack));
      && t == s.(listener := t.listener)
      && (t.listener.Deciding? ==>
           OwnAck(s.sender.state, ack.kind, t.listener.target) && t.listener.ack == ack)
      && (!t.listener.Deciding? ==>
           t.listener == Acking(ack) && forall target :: !OwnAck(s.sender.state, ack.kind, target))
  {}

  /** While no retry limit has been met, a decision to write a state is still right when it is carried out. */
  ghost predicate WaitsOk(s: System) {
    s.abandoned == {} ==>
      && s.sender.running
      && StateFits(s.caller.phase, s.sender.state)
      && (s.listener.Deciding? ==> OwnAck(s.sender.state, s.listener.ack.kind, s.listener.target))
  }

  lemma CallWaits(c: Config, s: System, step: Step)
    requires WaitsOk(s) && Enabled(c, s, step) && CallerStep(step) && IsCall(step)
    ensures WaitsOk(Do(c, s, step))
  {}

  lemma ReturnWaits(c: Config, s: System, step: Step)
    requires WaitsOk(s) && Enabled(c, s, step) && CallerStep(step) && !IsCall(step)
    ensures WaitsOk(Do(c, s, step))
  {}

  lemma ListenerWaits(c: Config, s: System, step: Step)
    requires WaitsOk(s) && Enabled(c, s, step) && ListenerStep(step)
    ensures WaitsOk(Do(c, s, step))
  {
    if step.Hear? {
      HearDecidesExactly(c, s, step.ack);
    }
  }

  /** The steps that leave the caller's phase, the state and the listener's decision alone. */
  lemma OtherWaits(c: Config, s: System, step: Step)
    requires WaitsOk(s) && Enabled(c, s, step) && !CallerStep(step) && !ListenerStep(step)
    ensures WaitsOk(Do(c, s, step))
  {
    if step.Ack? {
      SlideOnlyForward(c, s.sender, s.listener.ack.number);
    } else if step.Deliver? {
      DeliveryTouchesNoSender(c, s, step.packet);
    } else if SenderThreadStep(step) {
      OnlyLimitsChangeState(c, s, step);
    }
  }

  lemma StepWaits(c: Config, s: System, step: Step)
    requires WaitsOk(s) && Enabled(c, s, step)
    ensures WaitsOk(Do(c, s, step))
  {
    if CallerStep(step) {
      if IsCall(step) {
        CallWaits(c, s, step);
      } else {
        ReturnWaits(c, s, step);
      }
    } else if ListenerStep(step) {
      ListenerWaits(c, s, step);
    } else {
      OtherWaits(c, s, step);
    }
  }

  lemma {:induction false} RunWaits(c: Config, s: System, steps: seq<Step>)
    requires WaitsOk(s) && CanRun(c, s, steps)
    ensures WaitsOk(Run(c, s, steps))
    decreases |steps|
  {
    if |steps| > 0 {
      StepWaits(c, s, steps[0]);
      RunWaits(c, Do(c, s, steps[0]), steps[1..]);
    }
  }

  lemma ReachableWaits(c: Config, s: System)
    requires Reachable(c, s)
    ensures WaitsOk(s)
  {
    var steps :| CanRun(c, Init(c), steps) && Run(c, Init(c), steps) == s;
    RunWaits(c, Init(c), steps);
  }

  /** The state in which a phase waits. */
  predicate InWait(phase: Phase, state: SenderState) {
    || (phase == Phase.Connecting && state == SenderState.Connecting)
    || (phase.Pushing? && state == SenderState.Pushing)
    || (phase == Phase.Stopping && state == SenderState.Stopping)
    || (phase == Phase.Disconnecting && state == SenderState.Disconnecting)
  }

  /** After any number of sends, as long as no number has met its limit: a state that a call waits in is left
      only by the write that follows an ack of that call's own kind, and it is left for that call's own state. */
  lemma WaitEndsByOwnAck(c: Config, s: System, step: Step)
    requires Reachable(c, s) && Enabled(c, s, step) && Do(c, s, step).abandoned == {}
    requires InWait(s.caller.phase, s.sender.state) && Do(c, s, step).sender.state != s.sender.state
    ensures step.WriteState? && var kind, state := s.listener.ack.kind, Do(c, s, step).sender.state;
      && (s.caller.phase == Phase.Connecting ==> kind == ConnAck && state == SenderState.Connected)
      && (s.caller.phase.Pushing? ==> kind == DataPushAck && state == SenderState.Sending)
      && (s.caller.phase == Phase.Stopping ==> kind == DataStopAck && state == SenderState.Connected)
      && (s.caller.phase == Phase.Disconnecting ==> kind == DisconnAck && state == SenderState.Idle)
  {
    ReachableWaits(c, s);
    NoLimitBefore(c, s, step);
    if !step.WriteState? {
      OnlyWritesEndWaits(c, s, step);
    }
  }

  lemma NoLimitBefore(c: Config, s: System, step: Step)
    requires Enabled(c, s, step) && Do(c, s, step).abandoned == {}
    ensures s.abandoned == {}
  {
    if SenderThreadStep(step) {
      OnlyLimitsChangeState(c, s, step);
    }
  }

  lemma OnlyWritesEndWaits(c: Config, s: System, step: Step)
    requires Enabled(c, s, step) && !step.WriteState? && Do(c, s, step).abandoned == {}
    requires InWait(s.caller.phase, s.sender.state)
    ensures Do(c, s, step).sender.state == s.sender.state
  {
    if step.Ack? {
      SlideOnlyForward(c, s.sender, s.listener.ack.number);
    } else if step.Deliver? {
      DeliveryTouchesNoSender(c, s, step.packet);
    } else if SenderThreadStep(step) {
      OnlyLimitsChangeState(c, s, step);
    }
  }

  // ---- disconnect ----

  /** The receiver has written everything, and DisconnReq with it. */
  predicate AllWritten(s: System) {
    Disconnects(s.log) && s.receiver.first == |s.log|
  }

  /** DisconnAck is heard, and the wait of disconnect over, only when everything has been written. */
  ghost predicate DoneOk(s: System) {
    s.abandoned == {} ==>
      && (forall a :: a in s.acks && a.kind == DisconnAck ==> AllWritten(s))
      && (s.listener != Listening && s.listener.ack.kind == DisconnAck ==> AllWritten(s))
      && (s.caller.phase == Phase.Disconnecting && BeforeNumbering(s.caller.stage) ==>
           s.sender.state == SenderState.Disconnecting)
      && (s.caller.phase == Phase.Disconnecting && s.sender.state == SenderState.Idle ==> AllWritten(s))
      && (s.caller.phase == Finished ==> AllWritten(s))
  }

  lemma CallDone(c: Config, s: System, step: Step)
    requires DoneOk(s) && WaitsOk(s) && Enabled(c, s, step) && CallerStep(step) && IsCall(step)
    ensures DoneOk(Do(c, s, step))
  {}

  lemma ReturnDone(c: Config, s: System, step: Step)
    requires DoneOk(s) && WaitsOk(s) && Enabled(c, s, step) && CallerStep(step) && !IsCall(step)
    ensures DoneOk(Do(c, s, step))
  {}

  lemma BumpDone(c: Config, s: System)
    requires NumberingOk(s) && DoneOk(s) && Enabled(c, s, BumpUpper)
    ensures DoneOk(Do(c, s, BumpUpper))
  {
    assert BeforeNumbering(s.caller.stage);
    assert !AllWritten(s);
  }

  lemma HearDone(c: Config, s: System, ack: Packet)
    requires DoneOk(s) && Enabled(c, s, Hear(ack))
    ensures DoneOk(Do(c, s, Hear(ack)))
  {
    ListenerStepsTouchNoWindow(c, s, Hear(ack));
  }

  lemma WriteDone(c: Config, s: System)
    requires NumberingOk(s) && DoneOk(s) && WaitsOk(s) && Enabled(c, s, WriteState)
    ensures DoneOk(Do(c, s, WriteState))
  {
    if s.abandoned == {} && s.caller.phase == Phase.Disconnecting {
      DecidedIsWritten(s);
    }
    WriteFrame(s, Do(c, s, WriteState));
  }

  lemma DecidedIsWritten(s: System)
    requires NumberingOk(s) && DoneOk(s) && WaitsOk(s) && s.listener.Deciding?
    requires s.abandoned == {} && s.caller.phase == Phase.Disconnecting
    ensures s.listener.ack.kind == DisconnAck && !BeforeNumbering(s.caller.stage)
  {
    assert OwnAck(s.sender.state, s.listener.ack.kind, s.listener.target);
    assert AllWritten(s);
  }

  lemma WriteFrame(s: System, t: System)
    requires DoneOk(s) && s.listener.Deciding?
    requires t == s.(listener := Acking(s.listener.ack), sender := s.sender.(state := t.sender.state))
    requires s.abandoned == {} && s.caller.phase == Phase.Disconnecting ==>
      s.listener.ack.kind == DisconnAck && !BeforeNumbering(s.caller.stage)
    ensures DoneOk(t)
  {}

  lemma ListenerDone(c: Config, s: System, step: Step)
    requires NumberingOk(s) && DoneOk(s) && WaitsOk(s) && Enabled(c, s, step) && ListenerStep(step)
    ensures DoneOk(Do(c, s, step))
  {
    if step.Hear? {
      HearDone(c, s, step.ack);
    } else {
      WriteDone(c, s);
    }
  }

  lemma OtherDone(c: Config, s: System, step: Step)
    requires DoneOk(s) && Enabled(c, s, step)
    requires SenderThreadStep(step) || step.Ack? || step.Insert? || step.Lose?
    ensures DoneOk(Do(c, s, step))
  {
    if step.Ack? {
      SlideOnlyForward(c, s.sender, s.listener.ack.number);
    } else if SenderThreadStep(step) {
      OnlyLimitsChangeState(c, s, step);
    }
  }

  /** A DisconnReq that is in order is written by the delivery that acks it. */
  lemma DisconnectIsWritten(c: Config, s: System, p: Packet)
    requires c.Valid() && SessionOk(c, s) && Enabled(c, s, Deliver(p)) && p.kind == DisconnReq
    requires !s.receiver.done && s.receiver.first >= |s.log| - 1
    ensures AllWritten(Do(c, s, Deliver(p)))
  {
    NoMisstepInSession(c, s, p);
    DisconnReqIsLast(s.log, p);
    DeliveredIsTaken(c, s.receiver, p, s.log);
    ReceiveKeeps(c, s.receiver, p, s.log);
    DeliveryTouchesNoSender(c, s, p);
  }

  lemma DisconnAckMeansWritten(c: Config, s: System, p: Packet)
    requires c.Valid() && SessionOk(c, s) && OrderOk(s) && s.abandoned == {} && Enabled(c, s, Deliver(p))
    ensures var ack := RM.Receive(c, s.receiver, p).ack;
      ack.Some? && ack.value.kind == DisconnAck ==> AllWritten(Do(c, s, Deliver(p)))
  {
    AckKindMatches(c, s.receiver, p);
    if RM.Receive(c, s.receiver, p).ack.Some? && p.kind == DisconnReq {
      DisconnReqIsLast(s.log, p);
      DisconnectIsWritten(c, s, p);
    }
  }

  lemma DeliverDone(c: Config, s: System, p: Packet)
    requires c.Valid() && SessionOk(c, s) && OrderOk(s) && DoneOk(s) && Enabled(c, s, Deliver(p))
    ensures DoneOk(Do(c, s, Deliver(p)))
  {
    NoMisstepInSession(c, s, p);
    if s.abandoned == {} {
      DisconnAckMeansWritten(c, s, p);
    }
    DeliverSafe(c, s, p);
    DeliveryTouchesNoSender(c, s, p);
    DoneFrame(s, Do(c, s, Deliver(p)), RM.Receive(c, s.receiver, p));
  }

  lemma DoneFrame(s: System, t: System, reply: RM.Reply)
    requires DoneOk(s) && s.receiver.first <= t.receiver.first <= |s.log| && t.log == s.log
    requires t.acks == (if reply.ack.Some? then s.acks + {reply.ack.value} else s.acks)
    requires t.sender == s.sender && t.caller == s.caller && t.listener == s.listener && t.abandoned == s.abandoned
    requires s.abandoned == {} && reply.ack.Some? && reply.ack.value.kind == DisconnAck ==> AllWritten(t)
    ensures DoneOk(t)
  {}

  lemma StepDone(c: Config, s: System, step: Step)
    requires c.Valid() && SessionOk(c, s) && OrderOk(s) && WaitsOk(s) && DoneOk(s) && Enabled(c, s, step)
    ensures DoneOk(Do(c, s, step))
  {
    if CallerStep(step) {
      if IsCall(step) {
        CallDone(c, s, step);
      } else {
        ReturnDone(c, s, step);
      }
    } else if ListenerStep(step) {
      ListenerDone(c, s, step);
    } else if step.BumpUpper? {
      BumpDone(c, s);
    } else if step.Deliver? {
      DeliverDone(c, s, step.packet);
    } else {
      OtherDone(c, s, step);
    }
  }

  lemma {:induction false} RunDone(c: Config, s: System, steps: seq<Step>)
    requires c.Valid() && SessionOk(c, s) && OrderOk(s) && WaitsOk(s) && DoneOk(s)
    requires CanRun(c, s, steps) && |Run(c, s, steps).caller.files| <= 1
    ensures DoneOk(Run(c, s, steps))
    decreases |steps|
  {
    if |steps| > 0 {
      RunFilesGrow(c, Do(c, s, steps[0]), steps[1..]);
      StepSession(c, s, steps[0]);
      StepOrder(c, s, steps[0]);
      StepWaits(c, s, steps[0]);
      StepDone(c, s, steps[0]);
      RunDone(c, Do(c, s, steps[0]), steps[1..]);
    }
  }

  /** disconnect returns, in a session with at most one send and no retry limit met, only when the receiver has
      written every packet, DisconnReq included. */
  lemma DisconnectReturnsLast(c: Config, s: System)
    requires c.Valid() && Reachable(c, s) && |s.caller.files| <= 1 && s.abandoned == {}
    requires s.caller.phase == Finished
      || (s.caller.phase == Phase.Disconnecting && s.sender.state == SenderState.Idle)
    ensures Disconnects(s.log) && s.receiver.first == |s.log| && s.receiver.out == Payloads(s.log)
  {
    var steps :| CanRun(c, Init(c), steps) && Run(c, Init(c), steps) == s;
    InitSafe(c);
    RunDone(c, Init(c), steps);
    OneSendIsAlwaysInOrder(c, s);
    assert s.log[..|s.log|] == s.log;
  }
}

/** DisconnReq reaches the receiver in order in a session with at most one send, as long as no number has met
    its retry limit. */
module ControlOrder {
  import opened Options
  import opened Packets
  import opened Settings
  import opened SenderModel
  import opened System
  import opened SenderFacts
  import opened Safety
  import opened Session
  import opened FileTransfer
  import RM = ReceiverModel

  /** DataStop is acked only when it has been written. */
  ghost predicate StopGate(s: System) {
    && (forall a :: a in s.acks && a.kind == DataStopAck ==> PastStop(s))
    && (s.listener != Listening && s.listener.ack.kind == DataStopAck ==> PastStop(s))
  }

  /** The states that a wait for an ack can see while no retry limit interferes. */
  predicate StateFits(phase: Phase, state: SenderState) {
    match phase
    case Fresh => state == SenderState.Idle
    case Connecting => state in {SenderState.Connecting, SenderState.Connected}
    case Ready => state == SenderState.Connected
    case Pushing(_) => state in {SenderState.Pushing, SenderState.Sending}
    case Streaming(_, _) => state == SenderState.Sending
    case Draining => state == SenderState.Sending
    case Undrained => state == SenderState.Sending
    case Drained => state == SenderState.Sending
    case Stopping => state in {SenderState.Stopping, SenderState.Connected}
    case Disconnecting => state in {SenderState.Disconnecting, SenderState.Idle}
    case Finished => state == SenderState.Idle
  }

  /** Every wait of the caller ended with the ack it waited for. */
  ghost predicate Answered(s: System) {
    && s.sender.running
    && StateFits(s.caller.phase, s.sender.state)
    && (s.listener.Deciding? ==> Target(s.sender.state, s.listener.ack.kind) == Some(s.listener.target))
    && (s.caller.phase == Phase.Stopping && s.sender.state == SenderState.Connected ==> PastStop(s))
    && (s.caller.phase == Ready ==> s.receiver.first == |s.log|)
    && (s.caller.phase == Phase.Disconnecting && BeforeNumbering(s.caller.stage) ==> s.receiver.first == |s.log|)
    && (Disconnects(s.log) ==> s.receiver.first >= |s.log| - 1)
  }

  ghost predicate OrderOk(s: System) {
    StopGate(s) && (s.abandoned == {} ==> Answered(s))
  }

  /** What the caller's steps rely on, without the quantifiers of the invariant. */
  predicate CallerFacts(s: System) {
    && s.receiver.first <= |s.log|
    && (s.receiver.first == 0 ==> s.sender.state in {SenderState.Idle, SenderState.Connecting})
    && PhaseOk(s.caller, |s.log|, HasStop(s.log), Disconnects(s.log))
    && (HasStop(s.log) && StopIndex(s.log) < |s.log| - 1 ==> Disconnects(s.log))
  }

  lemma CallerStepAnswered(c: Config, s: System, step: Step)
    requires CallerFacts(s) && Enabled(c, s, step) && CallerStep(step)
    requires Answered(s)
    ensures Answered(Do(c, s, step))
  {
    if IsCall(step) {
      CallAnswered(c, s, step);
    } else {
      ReturnAnswered(c, s, step);
    }
  }

  lemma CallAnswered(c: Config, s: System, step: Step)
    requires CallerFacts(s) && Enabled(c, s, step) && CallerStep(step) && IsCall(step)
    requires Answered(s)
    ensures Answered(Do(c, s, step))
  {}

  lemma ReturnAnswered(c: Config, s: System, step: Step)
    requires CallerFacts(s) && Enabled(c, s, step) && CallerStep(step) && !IsCall(step)
    requires Answered(s)
    ensures Answered(Do(c, s, step))
  {}

  lemma CallerStepOrder(c: Config, s: System, step: Step)
    requires c.Valid() && SessionOk(c, s) && OrderOk(s) && Enabled(c, s, step) && CallerStep(step)
    ensures OrderOk(Do(c, s, step))
  {
    CallerStepsTouchNoNumber(c, s, step);
    if s.abandoned == {} {
      CallerStepAnswered(c, s, step);
    }
  }

  lemma BumpUpperAnswered(c: Config, s: System)
    requires Enabled(c, s, BumpUpper) && OrderOk(s) && !Disconnects(s.log) && s.sender.upper == |s.log|
    requires StopIndex(s.log + [NextPacket(s)]) ==
      if s.caller.phase == Phase.Stopping then |s.log| else StopIndex(s.log)
    requires Disconnects(s.log + [NextPacket(s)]) <==> s.caller.phase == Phase.Disconnecting
    requires s.caller.phase == Phase.Stopping ==> !HasStop(s.log)
    requires PhaseKind(s.caller.phase).Some?
    ensures OrderOk(Do(c, s, BumpUpper))
  {}

  lemma BumpUpperOrder(c: Config, s: System)
    requires c.Valid() && SessionOk(c, s) && OrderOk(s) && Enabled(c, s, BumpUpper)
    ensures OrderOk(Do(c, s, BumpUpper))
  {
    BeforeBump(c, s);
    BumpUpperPhase(c, s);
    BumpUpperAnswered(c, s);
  }

  lemma OnlyLimitsChangeState(c: Config, s: System, step: Step)
    requires Enabled(c, s, step) && SenderThreadStep(step)
    ensures var s' := Do(c, s, step);
      && (s'.abandoned == {} ==>
           s.abandoned == {} && s'.sender.state == s.sender.state && s'.sender.running == s.sender.running)
      && s'.receiver == s.receiver && s'.log == s.log && s'.caller == s.caller
      && s'.acks == s.acks && s'.listener == s.listener
  {}

  lemma SenderThreadOrder(c: Config, s: System, step: Step)
    requires OrderOk(s) && Enabled(c, s, step) && SenderThreadStep(step)
    ensures OrderOk(Do(c, s, step))
  {
    OnlyLimitsChangeState(c, s, step);
  }

  lemma HearOrder(c: Config, s: System, ack: Packet)
    requires OrderOk(s) && Enabled(c, s, Hear(ack))
    ensures OrderOk(Do(c, s, Hear(ack)))
  {}

  lemma WriteOrder(c: Config, s: System)
    requires OrderOk(s) && Enabled(c, s, WriteState)
    ensures OrderOk(Do(c, s, WriteState))
  {}

  lemma ListenerOrder(c: Config, s: System, step: Step)
    requires OrderOk(s) && Enabled(c, s, step) && (ListenerStep(step) || step.Ack?)
    ensures OrderOk(Do(c, s, step))
  {
    match step
    case Hear(ack) => HearOrder(c, s, ack);
    case WriteState => WriteOrder(c, s);
    case Ack => SlideOnlyForward(c, s.sender, s.listener.ack.number);
  }

  /** A delivery moves only the window of the receiver, and acks DataStop only past it. */
  lemma DeliverKeepsOrder(c: Config, s: System, t: System, reply: RM.Reply)
    requires OrderOk(s) && s.receiver.first <= reply.receiver.first <= |s.log|
    requires t.receiver == reply.receiver && t.acks == (if reply.ack.Some? then s.acks + {reply.ack.value} else s.acks)
    requires t.sender == s.sender && t.caller == s.caller && t.listener == s.listener
    requires t.log == s.log && t.abandoned == s.abandoned
    requires reply.ack.Some? && reply.ack.value.kind == DataStopAck ==> PastStop(t)
    ensures OrderOk(t)
  {}

  lemma StopIsWritten(c: Config, s: System, p: Packet)
    requires c.Valid() && Safe(c, s) && ShapeSafe(s) && Enabled(c, s, Deliver(p)) && !Missteps(s.receiver, p)
    ensures var reply := RM.Receive(c, s.receiver, p);
      reply.ack.Some? && reply.ack.value.kind == DataStopAck ==>
        HasStop(s.log) && reply.receiver.first > StopIndex(s.log)
  {
    AckKindMatches(c, s.receiver, p);
    if p.kind == DataStop && !s.receiver.done {
      assert s.log[p.number].kind == DataStop;
      DeliveredIsTaken(c, s.receiver, p, s.log);
    }
  }

  lemma DeliverOrder(c: Config, s: System, p: Packet)
    requires c.Valid() && SessionOk(c, s) && OrderOk(s) && Enabled(c, s, Deliver(p))
    ensures OrderOk(Do(c, s, Deliver(p)))
  {
    NoMisstepInSession(c, s, p);
    DeliveryTouchesNoSender(c, s, p);
    ReceiveKeeps(c, s.receiver, p, s.log);
    StopIsWritten(c, s, p);
    DeliverKeepsOrder(c, s, Do(c, s, Deliver(p)), RM.Receive(c, s.receiver, p));
  }

  lemma OtherOrder(c: Config, s: System, step: Step)
    requires SessionOk(c, s) && OrderOk(s) && Enabled(c, s, step) && (step.Insert? || step.Lose?)
    ensures OrderOk(Do(c, s, step))
  {
    if step.Insert? {
      InsertKeepsPackets(c, s);
    }
  }

  lemma StepOrder(c: Config, s: System, step: Step)
    requires c.Valid() && SessionOk(c, s) && OrderOk(s) && Enabled(c, s, step)
    ensures OrderOk(Do(c, s, step))
  {
    if CallerStep(step) {
      CallerStepOrder(c, s, step);
    } else if SenderThreadStep(step) {
      SenderThreadOrder(c, s, step);
    } else if ListenerStep(step) || step.Ack? {
      ListenerOrder(c, s, step);
    } else if step.BumpUpper? {
      BumpUpperOrder(c, s);
    } else if step.Deliver? {
      DeliverOrder(c, s, step.packet);
    } else {
      OtherOrder(c, s, step);
    }
  }

  lemma {:induction false} RunOrder(c: Config, s: System, steps: seq<Step>)
    requires c.Valid() && SessionOk(c, s) && OrderOk(s) && CanRun(c, s, steps) && |Run(c, s, steps).caller.files| <= 1
    ensures SessionOk(c, Run(c, s, steps)) && OrderOk(Run(c, s, steps))
    decreases |steps|
  {
    if |steps| > 0 {
      RunFilesGrow(c, Do(c, s, steps[0]), steps[1..]);
      StepSession(c, s, steps[0]);
      StepOrder(c, s, steps[0]);
      RunOrder(c, Do(c, s, steps[0]), steps[1..]);
    }
  }

  lemma ReachableOrder(c: Config, s: System)
    requires c.Valid() && Reachable(c, s) && |s.caller.files| <= 1
    ensures SessionOk(c, s) && OrderOk(s)
  {
    var steps :| CanRun(c, Init(c), steps) && Run(c, Init(c), steps) == s;
    InitSafe(c);
    RunOrder(c, Init(c), steps);
  }

  /** DisconnReq first reaches the receiver when everything numbered below it has been written, as long as
      no number has met its retry limit; it can arrive early only after one has. */
  lemma DisconnReqArrivesInOrder(c: Config, s: System, p: Packet)
    requires c.Valid() && Reachable(c, s) && |s.caller.files| <= 1 && s.abandoned == {}
    requires Enabled(c, s, Deliver(p)) && p.kind == DisconnReq && p.number >= s.receiver.first
    ensures p.number == s.receiver.first
  {
    ReachableOrder(c, s);
    DisconnReqIsLast(s.log, p);
  }
}

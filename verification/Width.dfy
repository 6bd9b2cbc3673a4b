/** The transition system over 32-bit numbers, and the simulation: while the numbers given out, plus either
    window, stay below 2^32, it takes the steps of the unbounded protocol, and the conditions that the
    contracts of the 32-bit objects ask for hold. */
module Width {
  import opened Options
  import opened Packets
  import opened Settings
  import opened SequenceNumbers
  import opened SenderModel
  import opened System
  import opened SenderFacts
  import opened ReceiverFacts
  import opened Safety
  import opened Runs
  import RM = ReceiverModel
  import RC = ReceiverClass

  // ---- The steps, with the operators of SequenceNumber ----

  predicate Available32(c: Config, s: Sender) {
    Minus(Truncate(s.upper), Truncate(s.lower)) < Truncate(c.sendWindow)
  }

  function SlideLower32(s: Sender): Sender
    decreases |s.acked|
  {
    if s.lower in s.acked then
      SlideLower32(s.(acked := s.acked - {s.lower}, lower := Next(Truncate(s.lower))))
    else
      s
  }

  function Acknowledge32(c: Config, s: Sender, n: nat): Sender {
    if c.selectiveRepeat then SlideLower32(s.(acked := s.acked + {n})) else CumulativeAck(c, s, n)
  }

  function Start32(c: Config): RM.Receiver {
    RM.Receiver(RM.Idle, 0, Truncate(c.recvWindow), map[], [], false, false)
  }

  function Transition32(c: Config, r: RM.Receiver, p: Packet): RM.Receiver {
    if r.state == RM.Idle && p.kind == ConnReq then
      r.(state := RM.Connected, peerKnown := true,
         first := p.number, second := Plus(Truncate(p.number), Truncate(c.recvWindow)))
    else
      RM.Transition(c, r, p)
  }

  function WriteFront32(r: RM.Receiver): RM.Receiver
    requires r.first in r.buffer
  {
    r.(first := Next(Truncate(r.first)),
       second := Next(Truncate(r.second)),
       out := r.out + r.buffer[r.first].payload,
       buffer := r.buffer - {r.first})
  }

  function Slide32(r: RM.Receiver): RM.Receiver
    decreases |r.buffer|
  {
    if RM.FrontIsNext(r) then Slide32(WriteFront32(r)) else r
  }

  function Accept32(c: Config, r: RM.Receiver, p: Packet): RM.Reply
    requires IsRequest(p.kind)
  {
    var r' := Slide32(RM.Buffer(Transition32(c, r, p), p));
    var ack := RM.AckFor(r', p, if c.selectiveRepeat then p.number else r'.first);
    if r'.state == RM.Idle && p.number < r'.first then
      RM.Reply(r'.(done := true), ack, Some(false))
    else if r.state == RM.Receiving && p.kind == DataStop && p.number < r'.first then
      RM.Reply(r', ack, Some(true))
    else
      RM.Reply(r', ack, None)
  }

  function Receive32(c: Config, r: RM.Receiver, p: Packet): RM.Reply
    requires IsRequest(p.kind)
  {
    if r.done || RM.IsOld(r, p) || RM.IsBeyond(r, p) then RM.Receive(c, r, p) else Accept32(c, r, p)
  }

  function Init32(c: Config): System {
    Init(c).(receiver := Start32(c))
  }

  ghost predicate Enabled32(c: Config, s: System, step: Step) {
    match step
    case SeeWindow => s.caller.stage.Waiting? && Available32(c, s.sender)
    case SeeFullWindow => s.caller.stage.Waiting? && !Available32(c, s.sender)
    case _ => Enabled(c, s, step)
  }

  /** The fast-retransmit loop of an ack step counts from lower to below upper, so it never wraps. */
  ghost function Do32(c: Config, s: System, step: Step): System
    requires Enabled32(c, s, step)
  {
    match step
    case SeeWindow => SetStage(s, Available(s.caller.stage.kind, s.caller.stage.payload))
    case SeeFullWindow => SetStage(s, Refused(s.caller.stage.kind, s.caller.stage.payload))
    case BumpUpper =>
      var t := NumberPacket(s);
      t.(sender := s.sender.(upper := Next(Truncate(s.sender.upper))))
    case Ack => s.(sender := Acknowledge32(c, s.sender, s.listener.ack.number), listener := Listening)
    case Deliver(p) =>
      var reply := Receive32(c, s.receiver, p);
      s.(receiver := reply.receiver,
         acks := if reply.ack.Some? then s.acks + {reply.ack.value} else s.acks,
         yielded := if reply.event == Some(true) then s.yielded + [reply.receiver.out] else s.yielded,
         finished := s.finished || reply.event == Some(false),
         misstep := s.misstep || Missteps(s.receiver, p))
    case _ => Do(c, s, step)
  }

  ghost predicate CanRun32(c: Config, s: System, steps: seq<Step>)
    decreases |steps|
  {
    |steps| == 0 || (Enabled32(c, s, steps[0]) && CanRun32(c, Do32(c, s, steps[0]), steps[1..]))
  }

  ghost function Run32(c: Config, s: System, steps: seq<Step>): System
    requires CanRun32(c, s, steps)
    decreases |steps|
  {
    if |steps| == 0 then s else Run32(c, Do32(c, s, steps[0]), steps[1..])
  }

  // ---- Below the bound ----

  /** The numbers given out leave room for either window below 2^32, and the receiver took no misstep. */
  predicate Bounded(c: Config, s: System) {
    !s.misstep && s.sender.upper + c.sendWindow < LIMIT && s.sender.upper + c.recvWindow < LIMIT
  }

  lemma AvailableAgrees(c: Config, s: Sender)
    requires s.lower <= s.upper < LIMIT && c.sendWindow < LIMIT
    ensures Available32(c, s) <==> SenderModel.Available(c, s)
  {}

  lemma SafeSenderFits(c: Config, s: System)
    requires c.Valid() && Safe(c, s) && Bounded(c, s)
    ensures s.sender.lower <= s.sender.upper < LIMIT - 1
    ensures Available32(c, s.sender) <==> SenderModel.Available(c, s.sender)
    ensures forall n :: n in s.sender.acked ==> n + 1 < LIMIT
    ensures s.listener.Acking? ==> s.listener.ack.number + 1 < LIMIT
  {
    AvailableAgrees(c, s.sender);
    forall n: nat | Holds(s.receiver, n)
      ensures n < |s.log|
    {}
    assert s.listener.Acking? ==> Acknowledges(c, s.receiver, s.listener.ack.number);
  }

  lemma SafeReceiverFits(c: Config, s: System, p: Packet)
    requires c.Valid() && Safe(c, s) && Bounded(c, s) && Enabled(c, s, Deliver(p))
    requires !s.receiver.done && !RM.IsOld(s.receiver, p) && !RM.IsBeyond(s.receiver, p)
    ensures RC.Fits(c, s.receiver, p)
  {
    BufferMatches(c, s.receiver, p, s.log);
    var r := RM.Buffer(RM.Transition(c, s.receiver, p), p);
    SizeInRange(r.buffer.Keys, r.first, |s.log|);
  }

  lemma SenderFits(c: Config, s: System)
    requires c.Valid() && Reachable(c, s) && Bounded(c, s)
    ensures s.sender.lower <= s.sender.upper < LIMIT - 1
    ensures Available32(c, s.sender) <==> SenderModel.Available(c, s.sender)
    ensures forall n :: n in s.sender.acked ==> n + 1 < LIMIT
    ensures s.listener.Acking? ==> s.listener.ack.number + 1 < LIMIT
  {
    ReachableSafe(c, s);
    SafeSenderFits(c, s);
  }

  lemma ReceiverFits(c: Config, s: System, p: Packet)
    requires c.Valid() && Reachable(c, s) && Bounded(c, s) && Enabled(c, s, Deliver(p))
    requires !s.receiver.done && !RM.IsOld(s.receiver, p) && !RM.IsBeyond(s.receiver, p)
    ensures RC.Fits(c, s.receiver, p)
  {
    ReachableSafe(c, s);
    SafeReceiverFits(c, s, p);
  }

  // ---- Each step is the same ----

  lemma {:induction false} SlideLowerAgrees(s: Sender)
    requires forall n :: n in s.acked ==> n + 1 < LIMIT
    ensures SlideLower32(s) == SlideLower(s)
    decreases |s.acked|
  {
    if s.lower in s.acked {
      NextIsPlusOne(s.lower);
      SlideLowerAgrees(s.(acked := s.acked - {s.lower}, lower := s.lower + 1));
    }
  }

  lemma WriteFrontAgrees(r: RM.Receiver)
    requires r.first in r.buffer && r.first + |r.buffer| < LIMIT && r.second + |r.buffer| < LIMIT
    ensures WriteFront32(r) == RM.WriteFront(r)
    ensures |RM.WriteFront(r).buffer| == |r.buffer| - 1
  {
    OneFewer(r.buffer, r.first);
    NextIsPlusOne(r.first);
    NextIsPlusOne(r.second);
  }

  lemma OneFewer(buffer: map<nat, Packet>, n: nat)
    requires n in buffer
    ensures |buffer - {n}| == |buffer| - 1
  {
    assert buffer.Keys == (buffer - {n}).Keys + {n};
  }

  lemma NextIsPlusOne(n: nat)
    requires n + 1 < LIMIT
    ensures Next(Truncate(n)) == n + 1
  {}

  lemma {:induction false} SlideAgrees(r: RM.Receiver)
    requires r.first + |r.buffer| < LIMIT && r.second + |r.buffer| < LIMIT
    ensures Slide32(r) == RM.Slide(r)
    decreases |r.buffer|
  {
    if RM.FrontIsNext(r) {
      WriteFrontAgrees(r);
      SlideAgrees(RM.WriteFront(r));
    }
  }

  lemma AcceptAgrees(c: Config, r: RM.Receiver, p: Packet)
    requires IsRequest(p.kind) && RC.Fits(c, r, p)
    ensures Accept32(c, r, p) == RM.Accept(c, r, p)
  {
    TransitionAgrees(c, r, p);
    SlideAgrees(RM.Buffer(RM.Transition(c, r, p), p));
  }

  lemma TransitionAgrees(c: Config, r: RM.Receiver, p: Packet)
    requires c.recvWindow + p.number < LIMIT
    ensures Transition32(c, r, p) == RM.Transition(c, r, p)
  {}

  lemma ReceiveAgrees(c: Config, s: System, p: Packet)
    requires c.Valid() && Safe(c, s) && Bounded(c, s) && Enabled(c, s, Deliver(p))
    ensures Receive32(c, s.receiver, p) == RM.Receive(c, s.receiver, p)
  {
    var r := s.receiver;
    if !r.done && !RM.IsOld(r, p) && !RM.IsBeyond(r, p) {
      SafeReceiverFits(c, s, p);
      AcceptAgrees(c, r, p);
    }
  }

  /** Below the bound the 32-bit code and the unbounded protocol can take the same steps, to the same states. */
  lemma StepAgrees(c: Config, s: System, step: Step)
    requires c.Valid() && Safe(c, s) && Bounded(c, s)
    ensures Enabled32(c, s, step) <==> Enabled(c, s, step)
    ensures Enabled(c, s, step) ==> Do32(c, s, step) == Do(c, s, step)
  {
    EnabledAgrees(c, s, step);
    if Enabled(c, s, step) {
      match step
      case Deliver(p) => DeliverAgrees(c, s, p);
      case Ack => AckAgrees(c, s);
      case BumpUpper => SafeSenderFits(c, s); BumpAgrees(c, s);
      case _ => OtherAgrees(c, s, step);
    }
  }

  lemma EnabledAgrees(c: Config, s: System, step: Step)
    requires c.Valid() && Safe(c, s) && Bounded(c, s)
    ensures Enabled32(c, s, step) <==> Enabled(c, s, step)
  {
    SafeSenderFits(c, s);
  }

  lemma DeliverAgrees(c: Config, s: System, p: Packet)
    requires c.Valid() && Safe(c, s) && Bounded(c, s) && Enabled(c, s, Deliver(p))
    ensures Do32(c, s, Deliver(p)) == Do(c, s, Deliver(p))
  {
    ReceiveAgrees(c, s, p);
    DeliveryTouchesNoSender(c, s, p);
  }

  lemma AckAgrees(c: Config, s: System)
    requires c.Valid() && Safe(c, s) && Bounded(c, s) && Enabled(c, s, Ack)
    ensures Do32(c, s, Ack) == Do(c, s, Ack)
  {
    SafeSenderFits(c, s);
    SlideLowerAgrees(s.sender.(acked := s.sender.acked + {s.listener.ack.number}));
  }

  lemma BumpAgrees(c: Config, s: System)
    requires Enabled(c, s, BumpUpper) && s.sender.upper + 1 < LIMIT
    ensures Do32(c, s, BumpUpper) == Do(c, s, BumpUpper)
  {}

  lemma OtherAgrees(c: Config, s: System, step: Step)
    requires Enabled(c, s, step) && Enabled32(c, s, step) && !step.Deliver? && !step.Ack? && !step.BumpUpper?
    ensures Do32(c, s, step) == Do(c, s, step)
  {}

  // ---- And so are the runs ----

  /** The bound at the end of a run is a bound along the run. */
  lemma BoundedBefore(c: Config, s: System, step: Step)
    requires Enabled(c, s, step) && Bounded(c, Do(c, s, step))
    ensures Bounded(c, s)
  {
    if step.Ack? {
      SlideOnlyForward(c, s.sender, s.listener.ack.number);
    } else if step.Process? {
      ProcessKeepsWindow(c, s.sender, s.held.value, step.now);
    }
  }

  lemma {:induction false} BoundedAlong(c: Config, s: System, steps: seq<Step>)
    requires CanRun(c, s, steps) && Bounded(c, Run(c, s, steps))
    ensures Bounded(c, s)
    decreases |steps|
  {
    if |steps| > 0 {
      BoundedAlong(c, Do(c, s, steps[0]), steps[1..]);
      BoundedBefore(c, s, steps[0]);
    }
  }

  lemma {:induction false} RunAgrees(c: Config, s: System, steps: seq<Step>)
    requires c.Valid() && Safe(c, s) && CanRun(c, s, steps) && Bounded(c, Run(c, s, steps))
    ensures CanRun32(c, s, steps) && Run32(c, s, steps) == Run(c, s, steps)
    decreases |steps|
  {
    if |steps| > 0 {
      BoundedAlong(c, s, steps);
      BoundedAlong(c, Do(c, s, steps[0]), steps[1..]);
      StepAgrees(c, s, steps[0]);
      StepWithoutMisstep(c, s, steps[0]);
      StepSafe(c, s, steps[0]);
      RunAgrees(c, Do(c, s, steps[0]), steps[1..]);
    }
  }

  /** Every run of the unbounded protocol that ends below the bound is a run of the 32-bit code. */
  lemma RunIsRun32(c: Config, steps: seq<Step>)
    requires c.Valid() && CanRun(c, Init(c), steps) && Bounded(c, Run(c, Init(c), steps))
    ensures CanRun32(c, Init32(c), steps) && Run32(c, Init32(c), steps) == Run(c, Init(c), steps)
  {
    InitSafe(c);
    BoundedAlong(c, Init(c), steps);
    assert Init32(c) == Init(c);
    RunAgrees(c, Init(c), steps);
  }

  /** Every state of a run of the 32-bit code is below the bound. */
  ghost predicate StaysBounded(c: Config, s: System, steps: seq<Step>)
    requires CanRun32(c, s, steps)
    decreases |steps|
  {
    Bounded(c, s) && (|steps| > 0 ==> StaysBounded(c, Do32(c, s, steps[0]), steps[1..]))
  }

  lemma {:induction false} Run32Agrees(c: Config, s: System, steps: seq<Step>)
    requires c.Valid() && Safe(c, s) && CanRun32(c, s, steps) && StaysBounded(c, s, steps)
    ensures CanRun(c, s, steps) && Run(c, s, steps) == Run32(c, s, steps)
    decreases |steps|
  {
    if |steps| > 0 {
      StepAgrees(c, s, steps[0]);
      assert Bounded(c, Do32(c, s, steps[0]));
      StepWithoutMisstep(c, s, steps[0]);
      StepSafe(c, s, steps[0]);
      Run32Agrees(c, Do(c, s, steps[0]), steps[1..]);
    }
  }

  /** Every run of the 32-bit code that stays below the bound is a run of the unbounded protocol. */
  lemma Run32IsRun(c: Config, steps: seq<Step>)
    requires c.Valid() && CanRun32(c, Init32(c), steps) && StaysBounded(c, Init32(c), steps)
    ensures CanRun(c, Init(c), steps) && Run(c, Init(c), steps) == Run32(c, Init32(c), steps)
  {
    InitSafe(c);
    assert Init32(c) == Init(c);
    Run32Agrees(c, Init(c), steps);
  }
}

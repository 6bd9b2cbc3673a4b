/** The two ends, their threads and the network as one transition system. */
module System {
  import opened Options
  import opened Packets
  import opened Settings
  import opened TimerModel
  import opened ConcurrentQueues
  import opened SenderModel
  import RM = ReceiverModel

  // ---- The thread that calls the sender: connect, any number of sends, disconnect ----

  /** Where the caller stands between its calls to send_packet. */
  datatype Phase =
    | Fresh
    | Connecting
    | Ready
    | Pushing(file: Bytes)
    | Streaming(rest: Bytes, good: bool)
    | Draining
    | Undrained
    | Drained
    | Stopping
    | Disconnecting
    | Finished

  /** Where the caller stands inside send_packet; each constructor follows one critical section. */
  datatype Stage =
    | Outside
    | Waiting(kind: PacketKind, payload: Bytes)
    | Refused(kind: PacketKind, payload: Bytes)
    | Available(kind: PacketKind, payload: Bytes)
    | Numbered(kind: PacketKind, payload: Bytes, number: nat)
    | Bumped(kind: PacketKind, payload: Bytes, number: nat)

  /** `files` records the streams given to `send`; `dropped` the bytes that send_packet returned
      without numbering, because the sender had stopped running. */
  datatype Caller = Caller(phase: Phase, stage: Stage, files: seq<Bytes>, dropped: Bytes)

  /** recv_handler reads the state, writes it, and then processes the ack, in separate sections. */
  datatype Listener =
    | Listening
    | Deciding(target: SenderState, ack: Packet)
    | Acking(ack: Packet)

  /** `data` and `acks` are what the network can still deliver. The last five fields record the past:
      every packet numbered so far, the numbers that met the retry limit, the output at each `true` that
      recv yielded, whether it has yielded `false`, and whether the receiver took a misstep (below). */
  datatype System = System(
    sender: Sender,
    held: Option<nat>,
    listener: Listener,
    caller: Caller,
    receiver: RM.Receiver,
    data: set<Packet>,
    acks: set<Packet>,
    clock: int,
    log: seq<Packet>,
    abandoned: set<nat>,
    yielded: seq<Bytes>,
    finished: bool,
    misstep: bool)

  function Init(c: Config): System {
    System(START, None, Listening, Caller(Fresh, Outside, [], []), RM.Start(c), {}, {}, 0, [], {}, [], false, false)
  }

  datatype Step =
    // the calling thread
    | StartConnect
    | ConnectReturns
    | StartSend(file: Bytes)
    | PushReturns
    | NextChunk
    | EndOfStream
    | SeeZero
    | SeeNonZero
    | DrainAgain
    | CancelSend
    | BeginStop
    | StopReturns
    | StartDisconnect
    | DisconnectReturns
    // send_packet, on the calling thread
    | SeeWindow
    | SeeFullWindow
    | WaitAgain
    | ReturnUnsent
    | ReadUpper
    | BumpUpper
    | Insert
    // send_handler
    | Pop
    | Process(now: int)
    // recv_handler
    | Hear(ack: Packet)
    | WriteState
    | Ack
    // the timer thread and timeout_handler
    | Fire(first: int, last: int)
    | Repend
    // the network and the receiver
    | Deliver(packet: Packet)
    | Lose(lostData: set<Packet>, lostAcks: set<Packet>)

  predicate AtPhase(s: System, phase: Phase) {
    s.caller.phase == phase && s.caller.stage == Outside
  }

  /** A thread of the sender tests running_ before it blocks, so what it then waits for can still happen after
      the sender has stopped: `Hear` and `Repend` do not ask for more. The calling thread tests it after a wait
      has timed out (`Refused`, `Undrained`), when the window may have moved again. */
  ghost predicate Enabled(c: Config, s: System, step: Step) {
    match step
    case StartConnect => AtPhase(s, Fresh)
    case ConnectReturns => AtPhase(s, Phase.Connecting) && s.sender.state in {SenderState.Connected, SenderState.Idle}
    case StartSend(_) => AtPhase(s, Ready)
    case PushReturns =>
      && s.caller.stage == Outside && s.caller.phase.Pushing?
      && s.sender.state in {SenderState.Sending, SenderState.Connected}
    case NextChunk => s.caller.stage == Outside && s.caller.phase.Streaming? && s.caller.phase.good
    case EndOfStream => s.caller.stage == Outside && s.caller.phase.Streaming? && !s.caller.phase.good
    case SeeZero => AtPhase(s, Draining) && s.sender.lower == s.sender.upper
    case SeeNonZero => AtPhase(s, Draining) && s.sender.lower != s.sender.upper
    case DrainAgain => AtPhase(s, Undrained) && s.sender.running
    case CancelSend => AtPhase(s, Undrained) && !s.sender.running
    case BeginStop => AtPhase(s, Drained)
    case StopReturns => AtPhase(s, Phase.Stopping) && s.sender.state == SenderState.Connected
    case StartDisconnect => AtPhase(s, Ready)
    case DisconnectReturns => AtPhase(s, Phase.Disconnecting) && s.sender.state == SenderState.Idle
    case SeeWindow => s.caller.stage.Waiting? && SenderModel.Available(c, s.sender)
    case SeeFullWindow => s.caller.stage.Waiting? && !SenderModel.Available(c, s.sender)
    case WaitAgain => s.caller.stage.Refused? && s.sender.running
    case ReturnUnsent => s.caller.stage.Refused? && !s.sender.running
    case ReadUpper => s.caller.stage.Available?
    case BumpUpper => s.caller.stage.Numbered?
    case Insert => s.caller.stage.Bumped?
    case Pop => s.sender.running && s.held == None && s.sender.pending != {}
    case Process(now) => s.held.Some? && s.clock <= now
    case Hear(ack) => s.listener == Listening && ack in s.acks
    case WriteState => s.listener.Deciding?
    case Ack => s.listener.Acking?
    case Fire(first, last) => s.clock <= first <= last && s.sender.timer.Due(first) != {}
    case Repend => s.sender.timer.timedOut != {}
    case Deliver(packet) => packet in s.data && IsRequest(packet.kind)
    case Lose(lostData, lostAcks) => lostData <= s.data && lostAcks <= s.acks
  }

  function Min(a: nat, b: nat): nat {
    if a < b then a else b
  }

  /** The caller enters `phase` and calls send_packet. */
  function Call(s: System, phase: Phase, kind: PacketKind, payload: Bytes): System {
    s.(caller := s.caller.(phase := phase, stage := Waiting(kind, payload)))
  }

  function Enter(s: System, phase: Phase): System {
    s.(caller := s.caller.(phase := phase))
  }

  function SetState(s: System, state: SenderState): System {
    s.(sender := s.sender.(state := state))
  }

  function SetStage(s: System, stage: Stage): System {
    s.(caller := s.caller.(stage := stage))
  }

  /** Send: one read of the input stream, which ends the stream when it comes up short. */
  function TakeChunk(s: System): System
    requires s.caller.phase.Streaming?
  {
    var rest := s.caller.phase.rest;
    var size := Min(MAX_PAYLOAD_SIZE, |rest|);
    Call(s, Streaming(rest[size..], size == MAX_PAYLOAD_SIZE), Data, rest[..size])
  }

  function NumberPacket(s: System): System
    requires s.caller.stage.Numbered?
  {
    var stage := s.caller.stage;
    s.(sender := s.sender.(upper := s.sender.upper + 1),
       log := s.log + [Packet(VERSION, stage.kind, stage.number, stage.payload)],
       caller := s.caller.(stage := Bumped(stage.kind, stage.payload, stage.number)))
  }

  function InsertNumbered(s: System): System
    requires s.caller.stage.Bumped?
  {
    var stage := s.caller.stage;
    s.(sender := InsertPacket(s.sender, Packet(VERSION, stage.kind, stage.number, stage.payload)),
       caller := s.caller.(stage := Outside))
  }

  ghost function PopLeast(s: System): System
    requires s.sender.pending != {}
  {
    var n := Least(s.sender.pending);
    s.(sender := s.sender.(pending := s.sender.pending - {n}), held := Some(n))
  }

  function ProcessHeld(c: Config, s: System, now: int): System
    requires s.held.Some?
  {
    var n := s.held.value;
    s.(sender := ProcessPopped(c, s.sender, n, now),
       held := None,
       clock := now,
       data := if Transmits(c, s.sender, n) then s.data + {s.sender.pool[n]} else s.data,
       abandoned := if Abandons(c, s.sender, n) then s.abandoned + {n} else s.abandoned)
  }

  function HearAck(s: System, ack: Packet): System {
    match Target(s.sender.state, ack.kind)
    case Some(target) => s.(listener := Deciding(target, ack))
    case None => s.(listener := Acking(ack))
  }

  /** The receiver is connected and idles at a DisconnReq that is not next in order: it forgets that it
      has a window to keep, and a late ConnReq would make it start again from number 0. The one exception
      is a DisconnReq numbered 2 or less: then no Data packet exists. */
  predicate Missteps(r: RM.Receiver, p: Packet) {
    && !r.done && !RM.IsOld(r, p) && !RM.IsBeyond(r, p)
    && r.state == RM.Connected && p.kind == DisconnReq
    && p.number > r.first && p.number > 2
  }

  function DeliverPacket(c: Config, s: System, p: Packet): System
    requires IsRequest(p.kind)
  {
    var reply := RM.Receive(c, s.receiver, p);
    s.(receiver := reply.receiver,
       acks := if reply.ack.Some? then s.acks + {reply.ack.value} else s.acks,
       yielded := if reply.event == Some(true) then s.yielded + [reply.receiver.out] else s.yielded,
       finished := s.finished || reply.event == Some(false),
       misstep := s.misstep || Missteps(s.receiver, p))
  }

  ghost function Do(c: Config, s: System, step: Step): System
    requires Enabled(c, s, step)
  {
    match step
    case StartConnect => Call(SetState(s, SenderState.Connecting), Phase.Connecting, ConnReq, [])
    case ConnectReturns => Enter(s, if s.sender.state == SenderState.Idle then Finished else Ready)
    case StartSend(file) =>
      var s1 := Call(SetState(s, SenderState.Pushing), Phase.Pushing(file), DataPush, []);
      s1.(caller := s1.caller.(files := s1.caller.files + [file]))
    case PushReturns =>
      Enter(s, if s.sender.state == SenderState.Connected then Ready else Streaming(s.caller.phase.file, true))
    case NextChunk => TakeChunk(s)
    case EndOfStream => Enter(s, Draining)
    case SeeZero => Enter(s, Drained)
    case SeeNonZero => Enter(s, Undrained)
    case DrainAgain => Enter(s, Draining)
    case CancelSend => Enter(s, Ready)
    case BeginStop => Call(SetState(s, SenderState.Stopping), Phase.Stopping, DataStop, [])
    case StopReturns => Enter(s, Ready)
    case StartDisconnect =>
      if s.sender.state == SenderState.Idle then Enter(s, Finished)
      else Call(SetState(s, SenderState.Disconnecting), Phase.Disconnecting, DisconnReq, [])
    case DisconnectReturns => Enter(s, Finished)
    case SeeWindow => SetStage(s, Available(s.caller.stage.kind, s.caller.stage.payload))
    case SeeFullWindow => SetStage(s, Refused(s.caller.stage.kind, s.caller.stage.payload))
    case WaitAgain => SetStage(s, Waiting(s.caller.stage.kind, s.caller.stage.payload))
    case ReturnUnsent =>
      s.(caller := s.caller.(stage := Outside, dropped := s.caller.dropped + s.caller.stage.payload))
    case ReadUpper => SetStage(s, Numbered(s.caller.stage.kind, s.caller.stage.payload, s.sender.upper))
    case BumpUpper => NumberPacket(s)
    case Insert => InsertNumbered(s)
    case Pop => PopLeast(s)
    case Process(now) => ProcessHeld(c, s, now)
    case Hear(ack) => HearAck(s, ack)
    case WriteState => SetState(s, s.listener.target).(listener := Acking(s.listener.ack))
    case Ack => s.(sender := Acknowledge(c, s.sender, s.listener.ack.number), listener := Listening)
    case Fire(first, last) => s.(sender := s.sender.(timer := s.sender.timer.Expire(last + SLACK)), clock := last)
    case Repend => s.(sender := SenderModel.Repend(s.sender))
    case Deliver(packet) => DeliverPacket(c, s, packet)
    case Lose(lostData, lostAcks) => s.(data := s.data - lostData, acks := s.acks - lostAcks)
  }

  // ---- Runs ----

  /** Every step of the list is enabled when it is taken. */
  ghost predicate CanRun(c: Config, s: System, steps: seq<Step>)
    decreases |steps|
  {
    |steps| == 0 || (Enabled(c, s, steps[0]) && CanRun(c, Do(c, s, steps[0]), steps[1..]))
  }

  ghost function Run(c: Config, s: System, steps: seq<Step>): System
    requires CanRun(c, s, steps)
    decreases |steps|
  {
    if |steps| == 0 then s else Run(c, Do(c, s, steps[0]), steps[1..])
  }

  ghost predicate Reachable(c: Config, s: System) {
    exists steps :: CanRun(c, Init(c), steps) && Run(c, Init(c), steps) == s
  }

  lemma {:induction false} RunJoin(c: Config, s: System, left: seq<Step>, right: seq<Step>)
    requires CanRun(c, s, left) && CanRun(c, Run(c, s, left), right)
    ensures CanRun(c, s, left + right)
    ensures Run(c, s, left + right) == Run(c, Run(c, s, left), right)
    decreases |left|
  {
    if |left| == 0 {
      assert left + right == right;
    } else {
      assert (left + right)[1..] == left[1..] + right;
      RunJoin(c, Do(c, s, left[0]), left[1..], right);
    }
  }
}

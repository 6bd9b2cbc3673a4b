/** What a session with one `send` transfers, and what recv tells its client. */
module FileTransfer {
  import opened Options
  import opened Packets
  import opened Settings
  import opened SenderModel
  import opened System
  import opened SenderFacts
  import opened ReceiverFacts
  import opened Safety
  import opened Runs
  import opened Session
  import opened Stream
  import RM = ReceiverModel

  // ---- Accounting for the bytes of the file ----

  function InFlight(stage: Stage): Bytes {
    if BeforeNumbering(stage) then stage.payload else []
  }

  /** The stream has been read to its end and every chunk has left send_packet. */
  predicate StreamDone(s: System) {
    s.caller.phase in {Draining, Undrained, Drained, Phase.Stopping} || HasStop(s.log)
  }

  predicate Streams(s: System) {
    s.caller.phase.Streaming?
  }

  /** The bytes that are not yet numbered: the payload in send_packet, and what is left of the stream. */
  function Unnumbered(caller: Caller): Bytes
    requires caller.phase.Streaming?
  {
    InFlight(caller.stage) + caller.phase.rest
  }

  /** Every byte of the file is numbered, on its way, still unread, or dropped by a stopped sender. */
  predicate BytesOk(s: System) {
    var caller, sent := s.caller, Payloads(s.log);
    && (caller.files == [] || caller.phase.Pushing? ==> caller.dropped == [])
    && (Streams(s) ==>
         && |caller.files| == 1
         && |caller.files[0]| == |sent| + |caller.dropped| + |Unnumbered(caller)|
         && (caller.dropped == [] ==> caller.files[0] == sent + Unnumbered(caller))
         && (!caller.phase.good ==> caller.phase.rest == []))
    && (StreamDone(s) ==>
         && |caller.files| == 1
         && |caller.files[0]| == |sent| + |caller.dropped|
         && (caller.dropped == [] ==> caller.files[0] == sent))
  }

  /** A sender that has given up handles no popped number, and only then does send_packet drop bytes. */
  ghost predicate RunningOk(s: System) {
    && (s.held.Some? ==> s.sender.running)
    && (s.caller.dropped != [] ==> !s.sender.running)
    && (forall p :: p in s.data && p.kind == DataStop ==> s.caller.dropped == [])
  }

  function PayloadsFrom(log: seq<Packet>, low: nat, high: nat): (r: seq<Bytes>)
    requires low <= high <= |log|
    ensures |r| == high - low && forall i :: 0 <= i < |r| ==> r[i] == log[low + i].payload
  {
    seq(high - low, i requires 0 <= i < high - low => log[low + i].payload)
  }

  /** The payloads of the Data packets: what is between DataPush and DataStop. */
  function DataPayloads(log: seq<Packet>): seq<Bytes>
    requires |log| >= 2
  {
    PayloadsFrom(log, 2, if StopIndex(log) >= 2 then StopIndex(log) else |log|)
  }

  /** The chunks that are still to be numbered. */
  function ChunksLeft(caller: Caller): seq<Bytes>
    requires caller.phase.Streaming?
  {
    (if BeforeNumbering(caller.stage) then [caller.stage.payload] else [])
    + if caller.phase.good then ChunksOf(caller.phase.rest) else []
  }

  /** A running sender numbers the chunks of the stream one by one. */
  predicate ChunksOk(s: System) {
    && (s.sender.running && Streams(s) ==>
         && |s.log| >= 2 && |s.caller.files| == 1
         && ChunksOf(s.caller.files[0]) == DataPayloads(s.log) + ChunksLeft(s.caller))
    && (s.sender.running && StreamDone(s) ==>
         |s.log| >= 2 && |s.caller.files| == 1 && ChunksOf(s.caller.files[0]) == DataPayloads(s.log))
  }

  predicate YieldsOk(s: System) {
    s.yielded == [] || (PastStop(s) && |s.caller.files| == 1 && s.yielded == [s.caller.files[0]])
  }

  ghost predicate TransferOk(s: System) {
    BytesOk(s) && RunningOk(s) && ChunksOk(s) && YieldsOk(s)
  }

  // ---- Preservation ----

  lemma ControlOnlyLog(log: seq<Packet>)
    requires LogOk(log) && Shape(log) && |log| <= 2
    ensures Payloads(log) == []
  {
    assert Payloads(log[..0]) == [];
    if |log| >= 1 {
      EmptyPayload(log, 0);
    }
    if |log| == 2 {
      EmptyPayload(log, 1);
    }
    assert log[..|log|] == log;
  }

  lemma NextChunkBytes(c: Config, s: System)
    requires Enabled(c, s, NextChunk) && BytesOk(s)
    requires PhaseOk(s.caller, |s.log|, HasStop(s.log), Disconnects(s.log))
    ensures BytesOk(Do(c, s, NextChunk))
  {
    var rest := s.caller.phase.rest;
    var size := Min(MAX_PAYLOAD_SIZE, |rest|);
    assert rest == rest[..size] + rest[size..];
    assert Unnumbered(Do(c, s, NextChunk).caller) == rest == Unnumbered(s.caller);
  }

  lemma ReturnUnsentBytes(c: Config, s: System)
    requires Enabled(c, s, ReturnUnsent) && BytesOk(s) && StageOk(s.caller, s.log)
    requires PhaseOk(s.caller, |s.log|, HasStop(s.log), Disconnects(s.log))
    ensures BytesOk(Do(c, s, ReturnUnsent))
  {}

  lemma StreamEndsBytes(c: Config, s: System, step: Step)
    requires Enabled(c, s, step) && (step.StartSend? || step.PushReturns? || step.EndOfStream?)
    requires BytesOk(s)
    requires PhaseOk(s.caller, |s.log|, HasStop(s.log), Disconnects(s.log))
    requires s.caller.phase.Pushing? ==> Payloads(s.log) == []
    requires |Do(c, s, step).caller.files| <= 1
    ensures BytesOk(Do(c, s, step))
  {
    var caller := Do(c, s, step).caller;
    if step.PushReturns? && caller.phase.Streaming? {
      assert Unnumbered(caller) == caller.phase.rest == caller.files[0];
      assert Payloads(s.log) + Unnumbered(caller) == Unnumbered(caller);
    } else if step.EndOfStream? {
      assert Payloads(s.log) + Unnumbered(s.caller) == Payloads(s.log);
    }
  }

  /** The steps inside send_packet that leave its packet to be numbered. */
  predicate StageStep(step: Step) {
    step.SeeWindow? || step.SeeFullWindow? || step.WaitAgain? || step.ReadUpper?
  }

  lemma StageBytes(c: Config, s: System, step: Step)
    requires Enabled(c, s, step) && StageStep(step)
    requires BytesOk(s)
    ensures BytesOk(Do(c, s, step))
  {}

  /** The steps that end a wait outside send_packet. */
  predicate WaitStep(step: Step) {
    step.ConnectReturns? || step.SeeZero? || step.SeeNonZero? || step.DrainAgain? || step.CancelSend?
    || step.StopReturns? || step.DisconnectReturns?
  }

  lemma ReturnsBytes(c: Config, s: System, step: Step)
    requires Enabled(c, s, step) && WaitStep(step)
    requires BytesOk(s)
    ensures BytesOk(Do(c, s, step))
  {}

  lemma CallsBytes(c: Config, s: System, step: Step)
    requires Enabled(c, s, step) && (step.StartConnect? || step.BeginStop? || step.StartDisconnect?)
    requires BytesOk(s)
    requires PhaseOk(s.caller, |s.log|, HasStop(s.log), Disconnects(s.log))
    ensures BytesOk(Do(c, s, step))
  {}

  lemma CallerStepBytes(c: Config, s: System, step: Step)
    requires Enabled(c, s, step) && CallerStep(step)
    requires BytesOk(s) && StageOk(s.caller, s.log)
    requires PhaseOk(s.caller, |s.log|, HasStop(s.log), Disconnects(s.log))
    requires s.caller.phase.Pushing? ==> Payloads(s.log) == []
    requires |Do(c, s, step).caller.files| <= 1
    ensures BytesOk(Do(c, s, step))
  {
    if step.NextChunk? {
      NextChunkBytes(c, s);
    } else if step.ReturnUnsent? {
      ReturnUnsentBytes(c, s);
    } else if step.StartSend? || step.PushReturns? || step.EndOfStream? {
      StreamEndsBytes(c, s, step);
    } else if StageStep(step) {
      StageBytes(c, s, step);
    } else if step.StartConnect? || step.BeginStop? || step.StartDisconnect? {
      CallsBytes(c, s, step);
    } else {
      ReturnsBytes(c, s, step);
    }
  }

  lemma NextChunkLeft(caller: Caller, caller': Caller, s: System)
    requires s.caller == caller && caller.phase.Streaming? && caller.phase.good && caller.stage == Outside
    requires caller' == TakeChunk(s).caller
    ensures ChunksLeft(caller') == ChunksLeft(caller)
  {
    var rest := caller.phase.rest;
    if |rest| >= MAX_PAYLOAD_SIZE {
      assert ChunksOf(rest) == [rest[..MAX_PAYLOAD_SIZE]] + ChunksOf(rest[MAX_PAYLOAD_SIZE..]);
    } else {
      assert rest[..|rest|] == rest;
    }
  }

  lemma StreamStartsChunks(c: Config, s: System)
    requires Enabled(c, s, PushReturns) && |s.log| == 2 && !HasStop(s.log) && s.caller.files == [s.caller.phase.file]
    requires s.sender.state == SenderState.Sending
    ensures ChunksOk(Do(c, s, PushReturns))
  {
    var caller := Do(c, s, PushReturns).caller;
    assert DataPayloads(s.log) == [];
    assert ChunksLeft(caller) == ChunksOf(caller.files[0]);
  }

  lemma InStreamChunks(c: Config, s: System, step: Step)
    requires Enabled(c, s, step)
    requires StageStep(step) || step.NextChunk? || step.EndOfStream? || step.ReturnUnsent?
    requires ChunksOk(s) && StageOk(s.caller, s.log)
    requires PhaseOk(s.caller, |s.log|, HasStop(s.log), Disconnects(s.log))
    ensures ChunksOk(Do(c, s, step))
  {
    if step.NextChunk? {
      NextChunkLeft(s.caller, Do(c, s, step).caller, s);
    } else if s.caller.phase.Streaming? && !step.ReturnUnsent? {
      assert step.EndOfStream? || ChunksLeft(Do(c, s, step).caller) == ChunksLeft(s.caller);
    }
  }

  lemma CallerStepChunks(c: Config, s: System, step: Step)
    requires Enabled(c, s, step) && CallerStep(step)
    requires ChunksOk(s) && StageOk(s.caller, s.log)
    requires PhaseOk(s.caller, |s.log|, HasStop(s.log), Disconnects(s.log))
    requires s.caller.phase.Pushing? ==> !HasStop(s.log)
    requires s.caller.phase.Pushing? && s.sender.state == SenderState.Sending ==> |s.log| == 2
    requires HasStop(s.log) ==> |s.caller.files| == 1
    requires |Do(c, s, step).caller.files| <= 1
    ensures ChunksOk(Do(c, s, step))
  {
    if step.PushReturns? && s.sender.state == SenderState.Sending {
      StreamStartsChunks(c, s);
    } else if StageStep(step) || step.NextChunk? || step.EndOfStream? || step.ReturnUnsent? {
      InStreamChunks(c, s, step);
    } else {
      CallerStepsTouchNoNumber(c, s, step);
    }
  }

  lemma CallerStepTransfer(c: Config, s: System, step: Step)
    requires c.Valid() && Safe(c, s) && ShapeSafe(s) && TransferOk(s) && Enabled(c, s, step) && CallerStep(step)
    requires |Do(c, s, step).caller.files| <= 1
    ensures TransferOk(Do(c, s, step))
  {
    PushingFacts(c, s);
    CallerStepBytes(c, s, step);
    CallerStepChunks(c, s, step);
    CallerStepRunning(c, s, step);
  }

  lemma PushingFacts(c: Config, s: System)
    requires Safe(c, s) && ShapeSafe(s)
    ensures s.caller.phase.Pushing? ==> Payloads(s.log) == [] && !HasStop(s.log)
    ensures s.caller.phase.Pushing? && s.sender.state == SenderState.Sending ==> |s.log| == 2
  {
    if s.caller.phase.Pushing? {
      ControlOnlyLog(s.log);
    }
  }

  lemma CallerStepRunning(c: Config, s: System, step: Step)
    requires Enabled(c, s, step) && CallerStep(step) && RunningOk(s) && YieldsOk(s) && StageOk(s.caller, s.log)
    requires forall p :: p in s.data ==> InLog(s.log, p)
    requires Shape(s.log) && PhaseOk(s.caller, |s.log|, HasStop(s.log), Disconnects(s.log))
    requires |Do(c, s, step).caller.files| <= 1
    ensures RunningOk(Do(c, s, step)) && YieldsOk(Do(c, s, step))
  {
    CallerStepsTouchNoNumber(c, s, step);
    if step.ReturnUnsent? && s.caller.stage.payload != [] {
      assert Streams(s) && !HasStop(s.log);
    }
  }

  lemma BumpUpperTransfer(c: Config, s: System)
    requires c.Valid() && Safe(c, s) && ShapeSafe(s) && TransferOk(s) && Enabled(c, s, BumpUpper)
    ensures TransferOk(Do(c, s, BumpUpper))
  {
    BeforeBump(c, s);
    BumpUpperPhase(c, s);
    PayloadsSnoc(s.log, NextPacket(s));
    BumpUpperBytes(c, s);
    BumpUpperChunks(c, s);
  }

  lemma BumpUpperBytes(c: Config, s: System)
    requires Enabled(c, s, BumpUpper) && BytesOk(s) && StageOk(s.caller, s.log)
    requires PhaseOk(s.caller, |s.log|, HasStop(s.log), Disconnects(s.log))
    requires HasStop(s.log) ==> s.caller.phase == Phase.Disconnecting
    requires StopIndex(s.log + [NextPacket(s)]) ==
      if s.caller.phase == Phase.Stopping then |s.log| else StopIndex(s.log)
    requires Payloads(s.log + [NextPacket(s)]) == Payloads(s.log) + s.caller.stage.payload
    ensures BytesOk(Do(c, s, BumpUpper))
  {
    if s.caller.phase.Streaming? {
      BumpDataBytes(c, s);
    } else {
      BumpControlBytes(c, s);
    }
  }

  lemma BumpDataBytes(c: Config, s: System)
    requires Enabled(c, s, BumpUpper) && BytesOk(s) && s.caller.phase.Streaming?
    requires StopIndex(s.log + [NextPacket(s)]) < 0
    requires Payloads(s.log + [NextPacket(s)]) == Payloads(s.log) + s.caller.stage.payload
    ensures BytesOk(Do(c, s, BumpUpper))
  {
    var payload, rest := s.caller.stage.payload, s.caller.phase.rest;
    assert Unnumbered(s.caller) == payload + rest;
    assert Unnumbered(Do(c, s, BumpUpper).caller) == rest;
    JoinAssociates(Payloads(s.log), payload, rest);
  }

  lemma BumpControlBytes(c: Config, s: System)
    requires Enabled(c, s, BumpUpper) && BytesOk(s) && !s.caller.phase.Streaming?
    requires s.caller.stage.payload == []
    requires StopIndex(s.log + [NextPacket(s)]) >= 0 ==> s.caller.phase == Phase.Stopping || HasStop(s.log)
    requires Payloads(s.log + [NextPacket(s)]) == Payloads(s.log) + s.caller.stage.payload
    ensures BytesOk(Do(c, s, BumpUpper))
  {
    assert Payloads(s.log) + [] == Payloads(s.log);
  }

  lemma DataGrows(log: seq<Packet>, p: Packet)
    requires |log| >= 2 && StopIndex(log) < 2 && StopIndex(log + [p]) < 2
    ensures DataPayloads(log + [p]) == DataPayloads(log) + [p.payload]
  {}

  lemma DataStays(log: seq<Packet>, p: Packet)
    requires |log| >= 2
    requires if StopIndex(log) >= 2 then StopIndex(log + [p]) == StopIndex(log) else StopIndex(log + [p]) == |log|
    ensures DataPayloads(log + [p]) == DataPayloads(log)
  {}

  lemma BumpUpperChunks(c: Config, s: System)
    requires Enabled(c, s, BumpUpper) && ChunksOk(s) && StageOk(s.caller, s.log)
    requires PhaseOk(s.caller, |s.log|, HasStop(s.log), Disconnects(s.log))
    requires Shape(s.log)
    requires HasStop(s.log) ==> s.caller.phase == Phase.Disconnecting
    requires StopIndex(s.log + [NextPacket(s)]) ==
      if s.caller.phase == Phase.Stopping then |s.log| else StopIndex(s.log)
    ensures ChunksOk(Do(c, s, BumpUpper))
  {
    var caller, caller' := s.caller, Do(c, s, BumpUpper).caller;
    if Streams(s) {
      DataGrows(s.log, NextPacket(s));
      assert ChunksLeft(caller) == [caller.stage.payload] + ChunksLeft(caller');
    } else if |s.log| >= 2 && (s.caller.phase == Phase.Stopping || StopIndex(s.log) >= 2) {
      DataStays(s.log, NextPacket(s));
    }
  }

  /** The accounts read only the caller, the log and what recv yielded. */
  lemma SameAccounts(s: System, s': System)
    requires BytesOk(s) && ChunksOk(s) && YieldsOk(s)
    requires s'.caller == s.caller.(stage := s'.caller.stage)
    requires BeforeNumbering(s'.caller.stage) == BeforeNumbering(s.caller.stage)
    requires InFlight(s'.caller.stage) == InFlight(s.caller.stage)
    requires s'.log == s.log && s'.yielded == s.yielded && s'.receiver.first >= s.receiver.first
    requires s'.sender.running ==> s.sender.running
    ensures BytesOk(s') && ChunksOk(s') && YieldsOk(s')
  {}

  /** The steps that number nothing and number no one's bytes. */
  lemma SenderSideTransfer(c: Config, s: System, step: Step)
    requires c.Valid() && Safe(c, s) && ShapeSafe(s) && TransferOk(s) && Enabled(c, s, step)
    requires SenderThreadStep(step) || ListenerStep(step) || step.Insert? || step.Ack? || step.Lose?
    ensures TransferOk(Do(c, s, step))
  {
    if SenderThreadStep(step) {
      SenderThreadsTouchNoWindow(c, s, step);
      NeverRunsAgain(c, s, step);
    } else if ListenerStep(step) {
      ListenerStepsTouchNoWindow(c, s, step);
    } else {
      QuietStep(c, s, step);
    }
    SameAccounts(s, Do(c, s, step));
  }

  lemma QuietStep(c: Config, s: System, step: Step)
    requires RunningOk(s) && Enabled(c, s, step) && (step.Insert? || step.Ack? || step.Lose?)
    ensures var t := Do(c, s, step);
      && t.caller == s.caller.(stage := t.caller.stage)
      && BeforeNumbering(t.caller.stage) == BeforeNumbering(s.caller.stage)
      && t.log == s.log && t.yielded == s.yielded && t.receiver == s.receiver
      && t.sender.running == s.sender.running && RunningOk(t)
  {
    if step.Ack? {
      SlideOnlyForward(c, s.sender, s.listener.ack.number);
    }
  }

  lemma NeverRunsAgain(c: Config, s: System, step: Step)
    requires RunningOk(s) && Enabled(c, s, step) && SenderThreadStep(step)
    ensures var s' := Do(c, s, step);
      && (s'.sender.running ==> s.sender.running)
      && RunningOk(s')
  {}

  lemma YieldMeansStop(c: Config, r: RM.Receiver, p: Packet)
    requires IsRequest(p.kind) && RM.Receive(c, r, p).event == Some(true)
    ensures !r.done && !RM.IsOld(r, p) && !RM.IsBeyond(r, p) && r.state == RM.Receiving && p.kind == DataStop
    ensures p.number < RM.Receive(c, r, p).receiver.first
  {}

  /** A yield of true happens at the in-order delivery of DataStop. */
  lemma YieldAtStop(c: Config, r: RM.Receiver, p: Packet, log: seq<Packet>)
    requires c.Valid() && LogOk(log) && Shape(log) && ReceiverOk(c, r, log) && InLog(log, p) && IsRequest(p.kind)
    requires r.first == 0 ==> |log| <= 1
    requires StopIndex(log) <= r.first && !Missteps(r, p)
    requires RM.Receive(c, r, p).event == Some(true)
    ensures HasStop(log) && p.number == StopIndex(log) == r.first && p.kind == DataStop
    ensures var r' := RM.Receive(c, r, p).receiver;
      r'.first > StopIndex(log) && r'.out == Payloads(log)
  {
    YieldMeansStop(c, r, p);
    ReceiveKeeps(c, r, p, log);
    assert log[p.number].kind == DataStop;
    TailIsControl(log, RM.Receive(c, r, p).receiver.first);
  }

  lemma DeliverTransfer(c: Config, s: System, p: Packet)
    requires c.Valid() && Safe(c, s) && ShapeSafe(s) && TransferOk(s) && Enabled(c, s, Deliver(p))
    ensures TransferOk(Do(c, s, Deliver(p)))
  {
    NoMisstepInSession(c, s, p);
    DeliveryTouchesNoSender(c, s, p);
    ReceiveKeeps(c, s.receiver, p, s.log);
    var s' := Do(c, s, Deliver(p));
    SameAccounts(s, s'.(yielded := s.yielded));
    if RM.Receive(c, s.receiver, p).event == Some(true) {
      YieldAtStop(c, s.receiver, p, s.log);
      YieldIsTheFile(s, s', p);
    }
  }

  /** DataStop was put on the wire by a running sender, which has dropped nothing. */
  lemma YieldIsTheFile(s: System, t: System, p: Packet)
    requires TransferOk(s) && p in s.data && p.kind == DataStop && HasStop(s.log)
    requires s.receiver.first <= StopIndex(s.log)
    requires t.log == s.log && t.caller == s.caller && t.yielded == s.yielded + [t.receiver.out]
    requires t.receiver.first > StopIndex(s.log) && t.receiver.out == Payloads(s.log)
    ensures YieldsOk(t)
  {}

  lemma StepTransfer(c: Config, s: System, step: Step)
    requires c.Valid() && Safe(c, s) && ShapeSafe(s) && TransferOk(s) && Enabled(c, s, step)
    requires |Do(c, s, step).caller.files| <= 1
    ensures TransferOk(Do(c, s, step))
  {
    if CallerStep(step) {
      CallerStepTransfer(c, s, step);
    } else if step.BumpUpper? {
      BumpUpperTransfer(c, s);
    } else if step.Deliver? {
      DeliverTransfer(c, s, step.packet);
    } else {
      SenderSideTransfer(c, s, step);
    }
  }

  // ---- Whole sessions ----

  ghost predicate SessionOk(c: Config, s: System) {
    Safe(c, s) && ShapeSafe(s) && TransferOk(s) && !s.misstep
  }

  lemma FilesOnlyGrow(c: Config, s: System, step: Step)
    requires Enabled(c, s, step)
    ensures |s.caller.files| <= |Do(c, s, step).caller.files|
  {}

  lemma {:induction false} RunFilesGrow(c: Config, s: System, steps: seq<Step>)
    requires CanRun(c, s, steps)
    ensures |s.caller.files| <= |Run(c, s, steps).caller.files|
    decreases |steps|
  {
    if |steps| > 0 {
      FilesOnlyGrow(c, s, steps[0]);
      RunFilesGrow(c, Do(c, s, steps[0]), steps[1..]);
    }
  }

  lemma StepSession(c: Config, s: System, step: Step)
    requires c.Valid() && SessionOk(c, s) && Enabled(c, s, step) && |Do(c, s, step).caller.files| <= 1
    ensures SessionOk(c, Do(c, s, step))
  {
    StepShape(c, s, step);
    StepTransfer(c, s, step);
    StepSafe(c, s, step);
    NoNewMisstep(c, s, step);
  }

  lemma NoNewMisstep(c: Config, s: System, step: Step)
    requires Enabled(c, s, step) && !s.misstep
    requires step.Deliver? ==> !Missteps(s.receiver, step.packet)
    ensures !Do(c, s, step).misstep
  {}

  lemma {:induction false} RunSession(c: Config, s: System, steps: seq<Step>)
    requires c.Valid() && SessionOk(c, s) && CanRun(c, s, steps) && |Run(c, s, steps).caller.files| <= 1
    ensures SessionOk(c, Run(c, s, steps))
    decreases |steps|
  {
    if |steps| > 0 {
      RunFilesGrow(c, Do(c, s, steps[0]), steps[1..]);
      StepSession(c, s, steps[0]);
      RunSession(c, Do(c, s, steps[0]), steps[1..]);
    }
  }

  lemma ReachableSession(c: Config, s: System)
    requires c.Valid() && Reachable(c, s) && |s.caller.files| <= 1
    ensures SessionOk(c, s)
  {
    var steps :| CanRun(c, Init(c), steps) && Run(c, Init(c), steps) == s;
    InitSafe(c);
    RunSession(c, Init(c), steps);
  }

  /** A session with one send never makes a misstep, so its output is always in order. */
  lemma OneSendIsAlwaysInOrder(c: Config, s: System)
    requires c.Valid() && Reachable(c, s) && |s.caller.files| <= 1
    ensures !s.misstep && s.receiver.first <= |s.log|
    ensures s.receiver.out == Payloads(s.log[..s.receiver.first]) <= Payloads(s.log)
  {
    ReachableSession(c, s);
    OutputInOrder(c, s);
  }

  /** Exact transfer: once send is past its wait for an empty window, the receiver has written every
      numbered byte; that is the whole file if and only if send_packet dropped no byte, which a sender
      that is still running never does. */
  lemma ExactTransfer(c: Config, s: System)
    requires c.Valid() && Reachable(c, s) && |s.caller.files| == 1
    requires s.caller.phase in {Drained, Phase.Stopping} || HasStop(s.log)
    ensures s.receiver.out == s.caller.files[0] <==> s.caller.dropped == []
    ensures s.sender.running ==> s.caller.dropped == []
    ensures |s.receiver.out| + |s.caller.dropped| == |s.caller.files[0]|
  {
    ReachableSession(c, s);
    var n := s.receiver.first;
    assert StopIndex(s.log) <= n;
    TailIsControl(s.log, n);
  }

  lemma {:induction false} TailIsControl(log: seq<Packet>, n: nat)
    requires LogOk(log) && Shape(log) && n <= |log|
    requires n == |log| || (HasStop(log) && n >= StopIndex(log))
    ensures Payloads(log[..n]) == Payloads(log)
    decreases |log| - n
  {
    if n < |log| {
      EmptyPayload(log, n);
      TailIsControl(log, n + 1);
    } else {
      assert log[..n] == log;
    }
  }

  lemma EmptyPayload(log: seq<Packet>, n: nat)
    requires LogOk(log) && n < |log| && log[n].kind != Data
    ensures Payloads(log[..n + 1]) == Payloads(log[..n])
  {
    assert log[..n + 1] == log[..n] + [log[n]];
    PayloadsSnoc(log[..n], log[n]);
  }

  /** recv yields true at most once, and then the output is exactly the file. */
  lemma YieldsTheFileOnce(c: Config, s: System)
    requires c.Valid() && Reachable(c, s) && |s.caller.files| <= 1
    ensures s.yielded == [] || (|s.caller.files| == 1 && s.yielded == [s.caller.files[0]])
    ensures s.yielded != [] ==> s.receiver.first > StopIndex(s.log) >= 0
  {
    ReachableSession(c, s);
  }

  /** The Data packets on the wire are the chunks of the file: n / 8178 + 1 of them. */
  lemma ChunksAreNumbered(c: Config, s: System)
    requires c.Valid() && Reachable(c, s) && |s.caller.files| == 1 && s.sender.running
    requires s.caller.phase in {Draining, Undrained, Drained} || HasStop(s.log)
    ensures |s.log| >= 2 && DataPayloads(s.log) == ChunksOf(s.caller.files[0])
    ensures |DataPayloads(s.log)| == |s.caller.files[0]| / 8178 + 1
  {
    ReachableSession(c, s);
    ChunksAreTheStream(s.caller.files[0]);
  }

  /** When DataStop first reaches the receiver, every packet numbered below it has been written. */
  lemma DataStopArrivesInOrder(c: Config, s: System, p: Packet)
    requires c.Valid() && Reachable(c, s) && |s.caller.files| <= 1
    requires Enabled(c, s, Deliver(p)) && p.kind == DataStop && p.number >= s.receiver.first
    ensures p.number == s.receiver.first
  {
    ReachableSession(c, s);
  }
}

/** What the calling thread asks of send_packet, and where each wait leaves it. */
module CallerSteps {
  import opened Packets
  import opened SenderModel
  import opened Settings
  import opened System

  predicate Asks(s: System, t: System, phase: Phase, kind: PacketKind, payload: Bytes, state: SenderState) {
    && t.caller == s.caller.(phase := phase, stage := Waiting(kind, payload), files := t.caller.files)
    && t == s.(caller := t.caller, sender := s.sender.(state := state))
  }

  /** Each call sets its state and asks for its own packet; a disconnect of an idle sender asks for none. */
  lemma CallsAsk(c: Config, s: System, step: Step)
    requires Enabled(c, s, step)
    ensures var t := Do(c, s, step);
      && (step.StartConnect? ==>
           Asks(s, t, Phase.Connecting, ConnReq, [], SenderState.Connecting) && t.caller.files == s.caller.files)
      && (step.StartSend? ==>
           && Asks(s, t, Phase.Pushing(step.file), DataPush, [], SenderState.Pushing)
           && t.caller.files == s.caller.files + [step.file])
      && (step.BeginStop? ==>
           Asks(s, t, Phase.Stopping, DataStop, [], SenderState.Stopping) && t.caller.files == s.caller.files)
      && (step.StartDisconnect? && s.sender.state != SenderState.Idle ==>
           && Asks(s, t, Phase.Disconnecting, DisconnReq, [], SenderState.Disconnecting)
           && t.caller.files == s.caller.files)
      && (step.StartDisconnect? && s.sender.state == SenderState.Idle ==>
           t == s.(caller := s.caller.(phase := Finished)))
  {}

  /** One turn of the read loop asks for the next 8178 bytes, or for what is left, which ends the loop. */
  lemma ChunkIsAsked(c: Config, s: System)
    requires Enabled(c, s, NextChunk)
    ensures var rest, t := s.caller.phase.rest, Do(c, s, NextChunk);
      var size := if |rest| < 8178 then |rest| else 8178;
      && Asks(s, t, Streaming(rest[size..], |rest| >= 8178), Data, rest[..size], s.sender.state)
      && t.caller.files == s.caller.files
  {}

  /** The phase that each wait leads to; a wait changes nothing else. */
  lemma WaitsLead(c: Config, s: System, step: Step)
    requires Enabled(c, s, step)
    requires step.ConnectReturns? || step.PushReturns? || step.EndOfStream? || step.SeeZero? || step.SeeNonZero?
      || step.DrainAgain? || step.CancelSend? || step.StopReturns? || step.DisconnectReturns?
    ensures var t := Do(c, s, step);
      && t == s.(caller := s.caller.(phase := t.caller.phase))
      && (step.ConnectReturns? ==> t.caller.phase == if s.sender.state == SenderState.Idle then Finished else Ready)
      && (step.PushReturns? && s.sender.state == SenderState.Connected ==> t.caller.phase == Ready)
      && (step.PushReturns? && s.sender.state == SenderState.Sending ==>
           t.caller.phase == Streaming(s.caller.phase.file, true))
      && (step.EndOfStream? || step.DrainAgain? ==> t.caller.phase == Draining)
      && (step.SeeZero? ==> t.caller.phase == Drained && s.sender.lower == s.sender.upper)
      && (step.SeeNonZero? ==> t.caller.phase == Undrained && s.sender.lower != s.sender.upper)
      && (step.CancelSend? || step.StopReturns? ==> t.caller.phase == Ready)
      && (step.DisconnectReturns? ==> t.caller.phase == Finished)
  {}

  /** When each wait can end. */
  lemma WaitsEndExactly(c: Config, s: System)
    requires s.caller.stage == Outside
    ensures Enabled(c, s, ConnectReturns) <==>
      s.caller.phase == Phase.Connecting && s.sender.state in {SenderState.Connected, SenderState.Idle}
    ensures Enabled(c, s, PushReturns) <==>
      s.caller.phase.Pushing? && s.sender.state in {SenderState.Sending, SenderState.Connected}
    ensures Enabled(c, s, StopReturns) <==>
      s.caller.phase == Phase.Stopping && s.sender.state == SenderState.Connected
    ensures Enabled(c, s, DisconnectReturns) <==>
      s.caller.phase == Phase.Disconnecting && s.sender.state == SenderState.Idle
    ensures Enabled(c, s, CancelSend) <==> s.caller.phase == Undrained && !s.sender.running
  {}

  /** send_packet goes on when there is room for one more number, and gives its bytes back otherwise only when
      the sender has stopped. */
  lemma RoomExactly(c: Config, s: System)
    requires s.caller.stage.Waiting? || s.caller.stage.Refused?
    ensures Enabled(c, s, SeeWindow) <==>
      s.caller.stage.Waiting? && s.sender.upper - s.sender.lower < c.sendWindow
    ensures Enabled(c, s, SeeFullWindow) <==>
      s.caller.stage.Waiting? && s.sender.upper - s.sender.lower >= c.sendWindow
    ensures Enabled(c, s, WaitAgain) <==> s.caller.stage.Refused? && s.sender.running
    ensures Enabled(c, s, ReturnUnsent) <==> s.caller.stage.Refused? && !s.sender.running
  {}
}

/** How `send` can lose bytes of its stream and go on, and exactly when it does. */
module LostBytes {
  import opened Options
  import opened Packets
  import opened Settings
  import opened SenderModel
  import opened System
  import opened ReceiverFacts
  import opened Safety
  import opened Session
  import opened FileTransfer
  import opened Progress
  import opened Transfers
  import RM = ReceiverModel

  // ---- The condition ----

  /** What send_packet returned without numbering it, in the order of the calls. */
  ghost function Unsent(c: Config, s: System, steps: seq<Step>): Bytes
    requires CanRun(c, s, steps)
    decreases |steps|
  {
    if |steps| == 0 then []
    else (if steps[0].ReturnUnsent? then s.caller.stage.payload else []) + Unsent(c, Do(c, s, steps[0]), steps[1..])
  }

  lemma OnlyUnsentIsDropped(c: Config, s: System, step: Step)
    requires Enabled(c, s, step)
    ensures Do(c, s, step).caller.dropped ==
      s.caller.dropped + if step.ReturnUnsent? then s.caller.stage.payload else []
  {
    if step.Deliver? {
      DeliveryTouchesNoSender(c, s, step.packet);
    }
  }

  lemma {:induction false} DroppedIsUnsent(c: Config, s: System, steps: seq<Step>)
    requires CanRun(c, s, steps)
    ensures Run(c, s, steps).caller.dropped == s.caller.dropped + Unsent(c, s, steps)
    decreases |steps|
  {
    if |steps| > 0 {
      OnlyUnsentIsDropped(c, s, steps[0]);
      DroppedIsUnsent(c, Do(c, s, steps[0]), steps[1..]);
    }
  }

  /** Exact transfer over a run: the receiver has the whole file if and only if no call of send_packet with
      bytes to send returned because the sender had stopped. */
  lemma ExactTransferOverRun(c: Config, steps: seq<Step>)
    requires c.Valid() && CanRun(c, Init(c), steps)
    requires var t := Run(c, Init(c), steps);
      |t.caller.files| == 1 && (t.caller.phase in {Drained, Phase.Stopping} || HasStop(t.log))
    ensures var t := Run(c, Init(c), steps);
      t.receiver.out == t.caller.files[0] <==> Unsent(c, Init(c), steps) == []
  {
    DroppedIsUnsent(c, Init(c), steps);
    ExactTransfer(c, Run(c, Init(c), steps));
  }

  /** The guard that fails: bytes can be dropped next if and only if send_packet has found the window full and
      the sender has stopped. */
  lemma LossIsPossibleExactly(c: Config, s: System)
    ensures (exists step :: Enabled(c, s, step) && Do(c, s, step).caller.dropped != s.caller.dropped)
      <==> s.caller.stage.Refused? && s.caller.stage.payload != [] && !s.sender.running
  {
    if s.caller.stage.Refused? && s.caller.stage.payload != [] && !s.sender.running {
      OnlyUnsentIsDropped(c, s, ReturnUnsent);
      assert Enabled(c, s, ReturnUnsent);
    } else if step :| Enabled(c, s, step) && Do(c, s, step).caller.dropped != s.caller.dropped {
      OnlyUnsentIsDropped(c, s, step);
    }
  }

  /** What the calling thread alone can do with bytes that have just been given to send_packet: number them if
      there is room; drop them if there is none and the sender has stopped. */
  lemma FullWindowDropsExactly(c: Config, s: System)
    requires s.caller.stage.Waiting? && s.caller.stage.payload != []
    ensures Enabled(c, s, SeeWindow) <==> SenderModel.Available(c, s.sender)
    ensures CanRun(c, s, [SeeFullWindow] + [ReturnUnsent]) <==>
      !SenderModel.Available(c, s.sender) && !s.sender.running
    ensures CanRun(c, s, [SeeFullWindow] + [ReturnUnsent]) ==>
      Run(c, s, [SeeFullWindow] + [ReturnUnsent]).caller.dropped == s.caller.dropped + s.caller.stage.payload
  {
    assert ([SeeFullWindow] + [ReturnUnsent])[1..] == [ReturnUnsent];
    if !SenderModel.Available(c, s.sender) && !s.sender.running {
      TwoSteps(c, s, SeeFullWindow, ReturnUnsent);
    }
  }

  // ---- A run that loses bytes ----

  /** One try for each packet, and a window that holds one. */
  predicate OneAtATime(c: Config) {
    c.Valid() && c.maxRetry == 0 && c.sendWindow == 1
  }

  ghost predicate StreamingAtRest(c: Config, s: System, file: Bytes) {
    && AtRest(c, s) && AtPhase(s, Streaming(file, true))
    && s.sender.state == SenderState.Sending && s.receiver.state == RM.Receiving
    && s.receiver.out == [] && s.caller.files == [file] && s.caller.dropped == []
  }

  lemma BeginStream(c: Config, file: Bytes) returns (steps: seq<Step>, t: System)
    requires c.Valid()
    ensures CanRun(c, Init(c), steps) && Run(c, Init(c), steps) == t
    ensures StreamingAtRest(c, t, file)
  {
    var connect, s := Connect(c);
    var push;
    push, t := Push(c, s, file);
    RunJoin(c, Init(c), connect, push);
    steps := connect + push;
    ReachableSession(c, t);
  }

  /** The first chunk has been written and acked; the ack is on its way and the timer still runs. */
  ghost predicate FirstAnswered(c: Config, s: System, file: Bytes, ack: Packet) {
    && |file| > MAX_PAYLOAD_SIZE
    && LowestAnswered(c, s, ack) && OnlyLowestTimed(s) && s.sender.lower + 1 == s.sender.upper
    && ack.kind == DataAck && s.sender.state == SenderState.Sending
    && s.caller == Caller(Streaming(file[MAX_PAYLOAD_SIZE..], true), Outside, [file], [])
    && s.receiver.out == file[..MAX_PAYLOAD_SIZE]
  }

  /** The first chunk is on the wire; the timer holds its number. */
  ghost predicate FirstSent(c: Config, s: System, file: Bytes) {
    && |file| > MAX_PAYLOAD_SIZE
    && LowestSent(c, s) && OnlyLowestTimed(s) && Open(s.receiver)
    && s.sender.lower == s.receiver.first && s.sender.lower + 1 == s.sender.upper
    && s.log[s.sender.lower].kind == Data && s.log[s.sender.lower].payload == file[..MAX_PAYLOAD_SIZE]
    && s.sender.state == SenderState.Sending && s.receiver.out == []
    && s.caller == Caller(Streaming(file[MAX_PAYLOAD_SIZE..], true), Outside, [file], [])
  }

  lemma SendFirst(c: Config, s: System, file: Bytes) returns (steps: seq<Step>, t: System)
    requires OneAtATime(c) && StreamingAtRest(c, s, file) && |file| > MAX_PAYLOAD_SIZE
    ensures CanRun(c, s, steps) && Run(c, s, steps) == t
    ensures FirstSent(c, t, file)
  {
    CallAtRest(c, s, NextChunk);
    var called := Do(c, s, NextChunk);
    var number := NumberAsked(c, called);
    var numbered := AfterNumbering(called);
    assert numbered.log[numbered.sender.lower] == Asked(called);
    var send := SendingPart(c, numbered);
    t := Run(c, numbered, send);
    RunJoin(c, called, number, send);
    RunJoin(c, s, [NextChunk], number + send);
    steps := [NextChunk] + (number + send);
  }

  lemma AnswerFirst(c: Config, s: System, file: Bytes) returns (steps: seq<Step>, t: System, ack: Packet)
    requires c.Valid() && FirstSent(c, s, file)
    ensures CanRun(c, s, steps) && Run(c, s, steps) == t
    ensures FirstAnswered(c, t, file, ack)
  {
    steps, ack := DeliverLowest(c, s);
    t := Run(c, s, steps);
    WrittenFirst(c, s);
  }

  lemma WrittenFirst(c: Config, s: System)
    requires c.Valid() && LowestSent(c, s) && Open(s.receiver)
    requires s.sender.lower == s.receiver.first && s.sender.lower + 1 == s.sender.upper
    ensures var p := s.log[s.sender.lower]; IsRequest(p.kind) && p in s.data
    ensures var p, t := s.log[s.sender.lower], Do(c, s, Deliver(s.log[s.sender.lower]));
      && t == s.(receiver := t.receiver, acks := t.acks, yielded := t.yielded, finished := t.finished,
                 misstep := t.misstep)
      && t.receiver.out == s.receiver.out + p.payload
  {
    var p := s.log[s.sender.lower];
    TakeNext(c, s.receiver, p, s.log);
    DeliveryTouchesNoSender(c, s, p);
  }

  /** The first chunk times out while its ack is being heard; the sender stops with a full window. */
  ghost predicate StoppedInStream(c: Config, s: System, file: Bytes, ack: Packet) {
    && |file| > MAX_PAYLOAD_SIZE
    && !s.sender.running && !SenderModel.Available(c, s.sender) && s.listener == Acking(ack)
    && s.caller == Caller(Streaming(file[MAX_PAYLOAD_SIZE..], true), Outside, [file], [])
    && s.receiver.out == file[..MAX_PAYLOAD_SIZE]
    && var t := Do(c, s, Ack); t.sender.lower == t.sender.upper
  }

  lemma StopAtLimit(c: Config, s: System, file: Bytes, ack: Packet) returns (steps: seq<Step>, t: System)
    requires OneAtATime(c) && FirstAnswered(c, s, file, ack)
    ensures CanRun(c, s, steps) && Run(c, s, steps) == t
    ensures StoppedInStream(c, t, file, ack)
  {
    var fire, repend, queued := TimeOutLowest(c, s);
    var popped := PopOnly(c, queued, s.sender.lower);
    OneStep(c, queued, Pop);
    var hear, acking := HearAnswer(c, popped, ack);
    LimitStops(c, acking, acking.clock);
    t := Do(c, acking, Process(acking.clock));
    OneStep(c, acking, Process(acking.clock));
    RunJoin(c, popped, hear, [Process(acking.clock)]);
    RunJoin(c, queued, [Pop], hear + [Process(acking.clock)]);
    RunJoin(c, s, [fire] + [repend], [Pop] + (hear + [Process(acking.clock)]));
    steps := [fire] + [repend] + ([Pop] + (hear + [Process(acking.clock)]));
    AckEmptiesWindow(c, t, ack);
  }

  lemma LimitStops(c: Config, s: System, now: int)
    requires Enabled(c, s, Process(now)) && c.maxRetry == 0 && s.sender.state == SenderState.Sending
    requires s.held.value == s.sender.lower < s.sender.upper && s.sender.lower in s.sender.retry
    requires s.sender.lower !in s.sender.acked
    ensures var t := Do(c, s, Process(now));
      && t.sender == s.sender.(running := false)
      && t == s.(sender := t.sender, held := None, clock := now, abandoned := t.abandoned)
  {
    assert Abandons(c, s.sender, s.sender.lower);
  }

  /** The ack of the only outstanding packet closes the window up. */
  lemma AckEmptiesWindow(c: Config, s: System, ack: Packet)
    requires s.listener == Acking(ack) && s.sender.lower + 1 == s.sender.upper == s.receiver.first
    requires s.sender.lower !in s.sender.acked && (forall m :: m in s.receiver.buffer ==> s.receiver.first < m)
    requires forall m :: m in s.sender.acked ==> c.selectiveRepeat && Holds(s.receiver, m)
    requires ack.number == if c.selectiveRepeat then s.sender.lower else s.receiver.first
    ensures var t := Do(c, s, Ack); t.sender.lower == t.sender.upper
  {
    AcknowledgeKeepsOrder(c, s.sender, s.receiver, ack.number);
  }

  /** Every later call of send_packet returns without numbering its chunk. */
  lemma {:induction false} DropRest(c: Config, s: System) returns (steps: seq<Step>, t: System)
    requires !s.sender.running && !SenderModel.Available(c, s.sender)
    requires s.caller.stage == Outside && s.caller.phase.Streaming?
    requires !s.caller.phase.good ==> s.caller.phase.rest == []
    ensures CanRun(c, s, steps) && Run(c, s, steps) == t
    ensures t == s.(caller := Caller(Draining, Outside, s.caller.files, s.caller.dropped + s.caller.phase.rest))
    decreases s.caller.phase.good, |s.caller.phase.rest|
  {
    if !s.caller.phase.good {
      OneStep(c, s, EndOfStream);
      steps, t := [EndOfStream], Do(c, s, EndOfStream);
    } else {
      var asked := Do(c, s, NextChunk);
      OneStep(c, s, NextChunk);
      TwoSteps(c, asked, SeeFullWindow, ReturnUnsent);
      var drop := [SeeFullWindow] + [ReturnUnsent];
      var rest;
      rest, t := DropRest(c, Run(c, asked, drop));
      RunJoin(c, asked, drop, rest);
      RunJoin(c, s, [NextChunk], drop + rest);
      steps := [NextChunk] + (drop + rest);
      JoinRest(s.caller.dropped, s.caller.phase.rest, Min(MAX_PAYLOAD_SIZE, |s.caller.phase.rest|));
    }
  }

  lemma GoOn(c: Config, s: System, file: Bytes, ack: Packet) returns (steps: seq<Step>, t: System)
    requires StoppedInStream(c, s, file, ack)
    ensures CanRun(c, s, steps) && Run(c, s, steps) == t
    ensures AtPhase(t, Drained) && t.caller.files == [file]
    ensures t.caller.dropped == file[MAX_PAYLOAD_SIZE..] && t.receiver.out == file[..MAX_PAYLOAD_SIZE]
  {
    var drop, dropped := DropRest(c, s);
    TwoSteps(c, dropped, Ack, SeeZero);
    t := Do(c, Do(c, dropped, Ack), SeeZero);
    RunJoin(c, s, drop, [Ack] + [SeeZero]);
    steps := drop + ([Ack] + [SeeZero]);
  }

  lemma LoseInStream(c: Config, s: System, file: Bytes) returns (steps: seq<Step>, t: System)
    requires OneAtATime(c) && StreamingAtRest(c, s, file) && |file| > MAX_PAYLOAD_SIZE
    ensures CanRun(c, s, steps) && Run(c, s, steps) == t
    ensures AtPhase(t, Drained) && t.caller.files == [file]
    ensures t.caller.dropped == file[MAX_PAYLOAD_SIZE..] && t.receiver.out == file[..MAX_PAYLOAD_SIZE]
  {
    var send, sent := SendFirst(c, s, file);
    var answer, answered, ack := AnswerFirst(c, sent, file);
    var stop, stopped := StopAtLimit(c, answered, file, ack);
    var goOn;
    goOn, t := GoOn(c, stopped, file, ack);
    RunJoin(c, answered, stop, goOn);
    RunJoin(c, sent, answer, stop + goOn);
    RunJoin(c, s, send, answer + (stop + goOn));
    steps := send + (answer + (stop + goOn));
  }

  /** send gets past its wait for an empty window with all but the first chunk of its file lost: the chunk
      times out for the last time while its ack is being heard, the window stays full until the rest of
      the stream has been read, and then the ack empties it. */
  lemma SendCanLoseBytes(c: Config, file: Bytes) returns (s: System)
    requires OneAtATime(c) && |file| > MAX_PAYLOAD_SIZE
    ensures Reachable(c, s) && AtPhase(s, Drained) && s.caller.files == [file]
    ensures s.caller.dropped == file[MAX_PAYLOAD_SIZE..] && s.receiver.out == file[..MAX_PAYLOAD_SIZE]
  {
    var begin, streaming := BeginStream(c, file);
    var lose;
    lose, s := LoseInStream(c, streaming, file);
    RunJoin(c, Init(c), begin, lose);
    assert CanRun(c, Init(c), begin + lose);
  }
}

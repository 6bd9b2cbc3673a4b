/** Runs that exist: with any settings, any file can be transferred from start to finish. */
module Transfers {
  import opened Options
  import opened Packets
  import opened Settings
  import opened SenderModel
  import opened System
  import opened SenderFacts
  import opened ReceiverFacts
  import opened Safety
  import opened Progress
  import RM = ReceiverModel

  /** Every packet is acked, no thread is busy, and the receiver waits for the next number. */
  ghost predicate AtRest(c: Config, s: System) {
    && CanFinish(c, s) && Parked(s)
    && s.sender.lower == s.sender.upper == s.receiver.first
    && Open(s.receiver) && !s.misstep
    && (forall p :: p in s.log ==> p in s.data)
  }

  /** The packet that the caller asks send_packet to send. */
  function Asked(s: System): Packet
    requires s.caller.stage.Waiting?
  {
    Packet(VERSION, s.caller.stage.kind, s.sender.upper, s.caller.stage.payload)
  }

  function AfterNumbering(s: System): System
    requires s.caller.stage.Waiting?
  {
    s.(sender := InsertPacket(s.sender.(upper := s.sender.upper + 1), Asked(s)),
       log := s.log + [Asked(s)],
       caller := s.caller.(stage := Outside))
  }

  /** The test and the read of the window find the number that comes next. */
  lemma SeeAndRead(c: Config, s: System) returns (steps: seq<Step>, t: System)
    requires c.Valid() && Safe(c, s) && SenderOk(c, s) && s.caller.stage.Waiting?
    requires SenderModel.Available(c, s.sender)
    ensures CanRun(c, s, steps) && Run(c, s, steps) == t
    ensures t == SetStage(s, Numbered(s.caller.stage.kind, s.caller.stage.payload, s.sender.upper))
    ensures Safe(c, t) && SenderOk(c, t)
  {
    var seen := Do(c, s, SeeWindow);
    StepKeepsInvariants(c, s, SeeWindow);
    StepKeepsInvariants(c, seen, ReadUpper);
    TwoSteps(c, s, SeeWindow, ReadUpper);
    steps, t := [SeeWindow] + [ReadUpper], Do(c, seen, ReadUpper);
  }

  lemma BumpAndInsert(c: Config, s: System) returns (steps: seq<Step>, t: System)
    requires c.Valid() && Safe(c, s) && SenderOk(c, s) && s.caller.stage.Numbered?
    ensures CanRun(c, s, steps) && Run(c, s, steps) == t
    ensures var p := Packet(VERSION, s.caller.stage.kind, s.caller.stage.number, s.caller.stage.payload);
      t == s.(sender := InsertPacket(s.sender.(upper := s.sender.upper + 1), p),
              log := s.log + [p],
              caller := s.caller.(stage := Outside))
    ensures Safe(c, t) && SenderOk(c, t)
  {
    var bumped := Do(c, s, BumpUpper);
    StepKeepsInvariants(c, s, BumpUpper);
    StepKeepsInvariants(c, bumped, Insert);
    NumberedAndInserted(c, s);
    TwoSteps(c, s, BumpUpper, Insert);
    steps, t := [BumpUpper] + [Insert], Do(c, bumped, Insert);
  }

  lemma NumberedAndInserted(c: Config, s: System)
    requires Enabled(c, s, BumpUpper)
    ensures Enabled(c, Do(c, s, BumpUpper), Insert)
    ensures var p := Packet(VERSION, s.caller.stage.kind, s.caller.stage.number, s.caller.stage.payload);
      Do(c, Do(c, s, BumpUpper), Insert) ==
        s.(sender := InsertPacket(s.sender.(upper := s.sender.upper + 1), p),
           log := s.log + [p],
           caller := s.caller.(stage := Outside))
  {}

  /** send_packet from its first test to its last insertion, in a window with room. */
  lemma NumberNext(c: Config, s: System) returns (steps: seq<Step>, t: System)
    requires c.Valid() && Safe(c, s) && SenderOk(c, s) && s.caller.stage.Waiting?
    requires SenderModel.Available(c, s.sender)
    ensures CanRun(c, s, steps) && Run(c, s, steps) == t && t == AfterNumbering(s)
    ensures Safe(c, t) && SenderOk(c, t)
  {
    var see, read := SeeAndRead(c, s);
    var bump;
    bump, t := BumpAndInsert(c, read);
    RunJoin(c, s, see, bump);
    steps := see + bump;
  }

  /** The same at rest, where the new packet has its tries before it. */
  lemma NumberAsked(c: Config, s: System) returns (steps: seq<Step>)
    requires c.Valid() && AtRest(c, s) && s.caller.stage.Waiting?
    ensures CanRun(c, s, steps) && Run(c, s, steps) == AfterNumbering(s)
    ensures CanFinish(c, AfterNumbering(s)) && Parked(AfterNumbering(s))
  {
    var t;
    steps, t := NumberNext(c, s);
    FreshBudget(c, s, t);
  }

  lemma FreshBudget(c: Config, s: System, t: System)
    requires CanFinish(c, s) && s.sender.lower == s.sender.upper
    requires t.sender.lower == s.sender.lower && t.sender.upper == s.sender.upper + 1
    requires t.sender.retry == s.sender.retry && t.abandoned == s.abandoned
    ensures BudgetLeft(c, t)
  {
    forall n: nat | Outstanding(c, t, n)
      ensures TryLeft(c, t, n)
    {
      assert n == s.sender.upper;
    }
  }

  /** The next packet in order, into an empty buffer. */
  lemma TakeNext(c: Config, r: RM.Receiver, p: Packet, log: seq<Packet>)
    requires c.Valid() && LogOk(log) && ReceiverOk(c, r, log) && InLog(log, p)
    requires Open(r) && p.number == r.first == |log| - 1
    ensures var reply, state := RM.Receive(c, r, p), RM.Transition(c, r, p).state;
      && reply.receiver.first == |log| && reply.receiver.out == r.out + p.payload
      && reply.receiver.state == state && reply.receiver.done == (state == RM.Idle)
      && reply.event == (if state == RM.Idle then Some(false)
                         else if r.state == RM.Receiving && p.kind == DataStop then Some(true) else None)
    ensures !Missteps(r, p)
  {
    assert r.buffer == map[];
    assert r.first == 0 ==> p.kind == ConnReq;
    var r2 := RM.Buffer(RM.Transition(c, r, p), p);
    assert r2.first == p.number && r2.buffer == map[p.number := p];
    assert RM.FrontIsNext(r2);
    var r3 := RM.WriteFront(r2);
    assert r3.buffer == map[];
    assert RM.Slide(r3) == r3;
  }

  /** What one exchange of a packet, from the call of send_packet to the slide, has changed. */
  ghost predicate Carried(c: Config, s: System, t: System)
    requires s.caller.stage.Waiting? && IsRequest(s.caller.stage.kind)
  {
    var p := Asked(s);
    var state := RM.Transition(c, s.receiver, p).state;
    && t.caller == s.caller.(stage := Outside)
    && t.log == s.log + [p] && t.abandoned == s.abandoned
    && t.receiver.first == |t.log| && t.receiver.out == s.receiver.out + p.payload
    && t.receiver.state == state && t.receiver.done == (state == RM.Idle)
    && t.sender.state == StateAfter(s.sender.state, GetAckKind(p.kind).value)
    && (!c.selectiveRepeat ==> t.sender.dups == 0)
    && t.yielded == s.yielded +
         (if s.receiver.state == RM.Receiving && p.kind == DataStop then [t.receiver.out] else [])
    && t.finished == (s.finished || state == RM.Idle)
  }

  lemma AskedIsRequest(c: Config, s: System)
    requires AtRest(c, s) && s.caller.stage.Waiting?
    ensures IsRequest(s.caller.stage.kind)
    ensures s.sender.upper == |s.log|
  {}

  /** A call of send_packet can be carried through to its ack. */
  lemma Exchange(c: Config, s: System) returns (steps: seq<Step>)
    requires c.Valid() && AtRest(c, s) && s.caller.stage.Waiting?
    ensures IsRequest(s.caller.stage.kind)
    ensures CanRun(c, s, steps) && Carried(c, s, Run(c, s, steps))
    ensures var t := Run(c, s, steps); !t.receiver.done ==> AtRest(c, t)
  {
    AskedIsRequest(c, s);
    var numbered := AfterNumbering(s);
    var number := NumberAsked(c, s);
    assert numbered.log[numbered.sender.lower] == Asked(s);
    var round := Round(c, numbered);
    RunJoin(c, s, number, round);
    steps := number + round;
    ExchangeCarries(c, s, Run(c, numbered, round));
  }

  lemma ExchangeCarries(c: Config, s: System, t: System)
    requires c.Valid() && AtRest(c, s) && s.caller.stage.Waiting? && IsRequest(s.caller.stage.kind)
    requires Safe(c, AfterNumbering(s)) && s.sender.upper == |s.log|
    requires Exchanged(c, AfterNumbering(s), t)
    requires CanFinish(c, t) && Parked(t)
    requires t.sender.lower > s.sender.lower && t.sender.upper == s.sender.upper + 1
    requires Open(t.receiver) || t.sender.lower == t.sender.upper
    ensures Carried(c, s, t)
    ensures !t.receiver.done ==> AtRest(c, t)
  {
    var p, numbered := Asked(s), AfterNumbering(s);
    assert numbered.log[numbered.sender.lower] == p && InLog(numbered.log, p);
    TakeNext(c, s.receiver, p, numbered.log);
    ExchangeEffect(c, s, t);
    if !t.receiver.done {
      ExchangeRests(c, s, t);
    }
  }

  lemma ExchangeEffect(c: Config, s: System, t: System)
    requires s.caller.stage.Waiting? && IsRequest(s.caller.stage.kind) && s.sender.upper == |s.log|
    requires s.sender.lower == s.sender.upper && Exchanged(c, AfterNumbering(s), t)
    requires var p, state := Asked(s), RM.Transition(c, s.receiver, Asked(s)).state;
      var reply := RM.Receive(c, s.receiver, p);
      && reply.receiver.first == |s.log| + 1 && reply.receiver.out == s.receiver.out + p.payload
      && reply.receiver.state == state && reply.receiver.done == (state == RM.Idle)
      && reply.event == (if state == RM.Idle then Some(false)
                         else if s.receiver.state == RM.Receiving && p.kind == DataStop then Some(true) else None)
    ensures Carried(c, s, t)
  {
    assert AfterNumbering(s).log[s.sender.lower] == Asked(s);
  }

  lemma ExchangeRests(c: Config, s: System, t: System)
    requires AtRest(c, s) && s.caller.stage.Waiting? && IsRequest(s.caller.stage.kind)
    requires s.sender.upper == |s.log| && Exchanged(c, AfterNumbering(s), t) && Carried(c, s, t)
    requires CanFinish(c, t) && Parked(t) && !Missteps(s.receiver, Asked(s))
    requires t.sender.lower > s.sender.lower && t.sender.upper == s.sender.upper + 1
    requires Open(t.receiver) || t.sender.lower == t.sender.upper
    requires !t.receiver.done
    ensures AtRest(c, t)
  {
    assert AfterNumbering(s).log[s.sender.lower] == Asked(s);
    assert t.sender.lower <= t.sender.upper;
    assert forall q :: q in t.log ==> q in s.log || q == Asked(s);
  }

  // ---- The calls of one session ----

  /** A step of the calling thread that numbers nothing leaves everything at rest. */
  lemma CallAtRest(c: Config, s: System, step: Step)
    requires c.Valid() && AtRest(c, s) && Enabled(c, s, step) && CallerStep(step)
    ensures AtRest(c, Do(c, s, step))
    ensures CanRun(c, s, [step]) && Run(c, s, [step]) == Do(c, s, step)
    ensures var t := Do(c, s, step); t == s.(caller := t.caller, sender := s.sender.(state := t.sender.state))
  {
    OneStep(c, s, step);
    StepKeepsInvariants(c, s, step);
    CallerStepsTouchNoNumber(c, s, step);
    SameRetries(c, s, Do(c, s, step));
  }

  /** Between two calls: connected at both ends. */
  ghost predicate ReadyAtRest(c: Config, s: System) {
    AtRest(c, s) && AtPhase(s, Ready) && s.sender.state == SenderState.Connected && s.receiver.state == RM.Connected
  }

  /** A call that asks for a packet, the exchange of that packet, and the step that ends the wait. */
  lemma CallAndReturn(c: Config, s: System, call: Step, back: Step) returns (steps: seq<Step>, t: System)
    requires c.Valid() && AtRest(c, s) && Enabled(c, s, call) && CallerStep(call) && CallerStep(back)
    requires Do(c, s, call).caller.stage.Waiting?
    requires forall u :: IsRequest(Do(c, s, call).caller.stage.kind) && Carried(c, Do(c, s, call), u) ==>
      Enabled(c, u, back) && !u.receiver.done
    ensures IsRequest(Do(c, s, call).caller.stage.kind)
    ensures CanRun(c, s, steps) && Run(c, s, steps) == t
    ensures AtRest(c, t)
    ensures exists u ::
      && Carried(c, Do(c, s, call), u) && Enabled(c, u, back) && t == Do(c, u, back)
      && t == u.(caller := t.caller, sender := u.sender.(state := t.sender.state))
  {
    CallAtRest(c, s, call);
    var called := Do(c, s, call);
    var exchange := Exchange(c, called);
    var u := Run(c, called, exchange);
    CallAtRest(c, u, back);
    t := Do(c, u, back);
    RunJoin(c, called, exchange, [back]);
    RunJoin(c, s, [call], exchange + [back]);
    steps := [call] + (exchange + [back]);
  }

  lemma Connect(c: Config) returns (steps: seq<Step>, t: System)
    requires c.Valid()
    ensures CanRun(c, Init(c), steps) && Run(c, Init(c), steps) == t
    ensures ReadyAtRest(c, t) && t.receiver.out == [] && t.yielded == [] && !t.finished
    ensures t.caller.files == [] && t.abandoned == {} && |t.log| == 1
    ensures !c.selectiveRepeat ==> t.sender.dups == 0
  {
    InitSafe(c);
    assert AtRest(c, Init(c));
    steps, t := CallAndReturn(c, Init(c), StartConnect, ConnectReturns);
  }

  lemma Push(c: Config, s: System, file: Bytes) returns (steps: seq<Step>, t: System)
    requires c.Valid() && ReadyAtRest(c, s)
    ensures CanRun(c, s, steps) && Run(c, s, steps) == t
    ensures AtRest(c, t) && AtPhase(t, Streaming(file, true))
    ensures t.sender.state == SenderState.Sending && t.receiver.state == RM.Receiving
    ensures t.receiver.out == s.receiver.out && t.yielded == s.yielded && t.finished == s.finished
    ensures t.caller.files == s.caller.files + [file] && t.abandoned == s.abandoned && |t.log| == |s.log| + 1
  {
    steps, t := CallAndReturn(c, s, StartSend(file), PushReturns);
  }

  lemma {:induction false} StreamAll(c: Config, s: System) returns (steps: seq<Step>, t: System)
    requires c.Valid() && AtRest(c, s) && s.caller.stage == Outside && s.caller.phase.Streaming?
    requires s.sender.state == SenderState.Sending && s.receiver.state != RM.Idle
    requires !s.caller.phase.good ==> s.caller.phase.rest == []
    ensures CanRun(c, s, steps) && Run(c, s, steps) == t
    ensures AtRest(c, t) && AtPhase(t, Draining)
    ensures t.sender.state == SenderState.Sending && t.receiver.state == s.receiver.state
    ensures t.receiver.out == s.receiver.out + s.caller.phase.rest && t.yielded == s.yielded && t.finished == s.finished
    ensures t.caller.files == s.caller.files && t.abandoned == s.abandoned && |t.log| >= |s.log|
    decreases s.caller.phase.good, |s.caller.phase.rest|
  {
    if !s.caller.phase.good {
      CallAtRest(c, s, EndOfStream);
      steps, t := [EndOfStream], Do(c, s, EndOfStream);
    } else {
      CallAtRest(c, s, NextChunk);
      var called := Do(c, s, NextChunk);
      var exchange := Exchange(c, called);
      var u := Run(c, called, exchange);
      var rest, t' := StreamAll(c, u);
      t := t';
      RunJoin(c, called, exchange, rest);
      RunJoin(c, s, [NextChunk], exchange + rest);
      steps := [NextChunk] + (exchange + rest);
      JoinRest(s.receiver.out, s.caller.phase.rest, Min(MAX_PAYLOAD_SIZE, |s.caller.phase.rest|));
    }
  }

  lemma JoinRest(out: Bytes, rest: Bytes, n: nat)
    requires n <= |rest|
    ensures out + rest[..n] + rest[n..] == out + rest
  {
    assert rest == rest[..n] + rest[n..];
  }

  /** What a DataStop in order makes recv yield: true, if the receiver is in a transfer. */
  function StopYields(s: System): seq<Bytes> {
    if s.receiver.state == RM.Receiving then [s.receiver.out] else []
  }

  ghost predicate SentStop(c: Config, s: System, t: System) {
    && ReadyAtRest(c, t) && t.receiver.out == s.receiver.out && t.yielded == s.yielded + StopYields(s)
    && t.finished == s.finished && t.caller.files == s.caller.files && t.abandoned == s.abandoned
    && |t.log| == |s.log| + 1 && t.log[|s.log|].kind == DataStop
  }

  lemma StopDrained(c: Config, s: System) returns (steps: seq<Step>, t: System)
    requires c.Valid() && AtRest(c, s) && AtPhase(s, Drained) && s.receiver.state != RM.Idle
    ensures CanRun(c, s, steps) && Run(c, s, steps) == t
    ensures SentStop(c, s, t)
  {
    steps, t := CallAndReturn(c, s, BeginStop, StopReturns);
  }

  lemma Stop(c: Config, s: System) returns (steps: seq<Step>, t: System)
    requires c.Valid() && AtRest(c, s) && AtPhase(s, Draining) && s.receiver.state != RM.Idle
    ensures CanRun(c, s, steps) && Run(c, s, steps) == t
    ensures SentStop(c, s, t)
  {
    CallAtRest(c, s, SeeZero);
    var stop;
    stop, t := StopDrained(c, Do(c, s, SeeZero));
    RunJoin(c, s, [SeeZero], stop);
    steps := [SeeZero] + stop;
  }

  /** From the beginning of its stream, a send can run to its end. */
  lemma StreamAndStop(c: Config, s: System, file: Bytes) returns (steps: seq<Step>, t: System)
    requires c.Valid() && AtRest(c, s) && AtPhase(s, Streaming(file, true))
    requires s.sender.state == SenderState.Sending && s.receiver.state != RM.Idle
    ensures CanRun(c, s, steps) && Run(c, s, steps) == t
    ensures ReadyAtRest(c, t) && t.receiver.out == s.receiver.out + file
    ensures t.yielded == s.yielded + if s.receiver.state == RM.Receiving then [s.receiver.out + file] else []
    ensures t.finished == s.finished && t.caller.files == s.caller.files && t.abandoned == s.abandoned
    ensures |t.log| > |s.log| && t.log[|t.log| - 1].kind == DataStop
  {
    var stream, streamed := StreamAll(c, s);
    var stop, stopped := Stop(c, streamed);
    StoppedAfter(c, s, streamed, stopped);
    RunJoin(c, s, stream, stop);
    steps, t := stream + stop, stopped;
  }

  lemma StoppedAfter(c: Config, s: System, streamed: System, t: System)
    requires SentStop(c, streamed, t) && streamed.receiver.state == s.receiver.state && streamed.yielded == s.yielded
    ensures t.receiver.out == streamed.receiver.out && t.log[|t.log| - 1].kind == DataStop
    ensures t.yielded == s.yielded + if s.receiver.state == RM.Receiving then [streamed.receiver.out] else []
  {}

  /** From a connected pair, a send of any file can run to its end: the receiver writes the file behind
      what it has written before, and yields true. */
  lemma SendCanComplete(c: Config, s: System, file: Bytes) returns (steps: seq<Step>, t: System)
    requires c.Valid() && ReadyAtRest(c, s)
    ensures CanRun(c, s, steps) && Run(c, s, steps) == t
    ensures ReadyAtRest(c, t) && t.receiver.out == s.receiver.out + file
    ensures t.yielded == s.yielded + [s.receiver.out + file]
    ensures t.finished == s.finished && t.caller.files == s.caller.files + [file] && t.abandoned == s.abandoned
    ensures |t.log| >= |s.log| + 2 && t.log[|t.log| - 1].kind == DataStop
  {
    var push, pushed := Push(c, s, file);
    var stream;
    stream, t := StreamAndStop(c, pushed, file);
    RunJoin(c, s, push, stream);
    steps := push + stream;
  }

  lemma ExchangeDisconnect(c: Config, s: System) returns (steps: seq<Step>, t: System)
    requires c.Valid() && AtRest(c, s)
    requires s.caller.phase == Phase.Disconnecting && s.caller.stage == Waiting(DisconnReq, [])
    requires s.sender.state == SenderState.Disconnecting && s.receiver.state == RM.Connected
    ensures CanRun(c, s, steps) && Run(c, s, steps) == t
    ensures AtPhase(t, Phase.Disconnecting) && t.sender.state == SenderState.Idle && t.finished && t.receiver.done
    ensures t.receiver.out == s.receiver.out && t.yielded == s.yielded && t.caller.files == s.caller.files
  {
    steps := Exchange(c, s);
    t := Run(c, s, steps);
    assert s.receiver.out + [] == s.receiver.out;
  }

  lemma Disconnect(c: Config, s: System) returns (steps: seq<Step>, t: System)
    requires c.Valid() && ReadyAtRest(c, s)
    ensures CanRun(c, s, steps) && Run(c, s, steps) == t
    ensures AtPhase(t, Finished) && t.finished && t.receiver.done
    ensures t.receiver.out == s.receiver.out && t.yielded == s.yielded && t.caller.files == s.caller.files
  {
    CallAtRest(c, s, StartDisconnect);
    var called := Do(c, s, StartDisconnect);
    var exchange, u := ExchangeDisconnect(c, called);
    OneStep(c, u, DisconnectReturns);
    RunJoin(c, called, exchange, [DisconnectReturns]);
    RunJoin(c, s, [StartDisconnect], exchange + [DisconnectReturns]);
    steps, t := [StartDisconnect] + (exchange + [DisconnectReturns]), Do(c, u, DisconnectReturns);
  }

  /** With any settings and any file there is a session that ends with both sides finished, the file as the
      whole output, and one yield of true. */
  lemma EveryFileCanBeTransferred(c: Config, file: Bytes) returns (steps: seq<Step>)
    requires c.Valid()
    ensures CanRun(c, Init(c), steps)
    ensures var t := Run(c, Init(c), steps);
      && AtPhase(t, Finished) && t.finished && t.receiver.done
      && t.receiver.out == file && t.yielded == [file] && t.caller.files == [file]
  {
    var connect, s1 := Connect(c);
    var send, s2 := SendCanComplete(c, s1, file);
    var disconnect, s3 := Disconnect(c, s2);
    RunJoin(c, s1, send, disconnect);
    RunJoin(c, Init(c), connect, send + disconnect);
    steps := connect + (send + disconnect);
  }
}

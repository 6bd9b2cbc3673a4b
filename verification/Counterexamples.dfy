/** Runs that show where the code does not keep order, when a retry limit is met: a DisconnReq that is early,
    and, with a second send in the session, output that is written twice. */
module Counterexamples {
  import opened Options
  import opened Packets
  import opened Settings
  import opened SenderModel
  import opened System
  import opened SenderFacts
  import opened ReceiverFacts
  import opened Safety
  import opened Progress
  import opened Transfers
  import opened Misstep
  import RM = ReceiverModel

  /** One try for each packet, and room for two numbers at both ends. */
  predicate OneTry(c: Config) {
    c.Valid() && c.maxRetry == 0 && c.sendWindow >= 2 && c.recvWindow >= 2
  }

  /** The DataPush numbered last has been sent once and lost; the timer holds it. */
  ghost predicate PushLost(c: Config, s: System) {
    && Safe(c, s) && SenderOk(c, s) && s.sender.running && Parked(s)
    && s.caller.stage == Outside && s.caller.phase.Pushing? && s.sender.state == SenderState.Pushing
    && s.sender.lower + 1 == s.sender.upper
    && OnlyLowestTimed(s) && s.abandoned == {}
  }

  lemma LosePush(c: Config, s: System, file: Bytes) returns (steps: seq<Step>, t: System)
    requires OneTry(c) && ReadyAtRest(c, s) && s.abandoned == {}
    ensures CanRun(c, s, steps) && Run(c, s, steps) == t
    ensures PushLost(c, t) && t.receiver == s.receiver && t.log == s.log + [Packet(VERSION, DataPush, |s.log|, [])]
    ensures t.yielded == s.yielded && s.data <= t.data && !t.misstep && t.caller.files == s.caller.files + [file]
  {
    CallAtRest(c, s, StartSend(file));
    var called := Do(c, s, StartSend(file));
    var number := NumberAsked(c, called);
    var numbered := AfterNumbering(called);
    var send := SendingPart(c, numbered);
    RunJoin(c, called, number, send);
    RunJoin(c, s, [StartSend(file)], number + send);
    steps := [StartSend(file)] + (number + send);
    t := Run(c, numbered, send);
  }

  /** The timer gives the number back, and send_handler meets the limit: the wait for DataPushAck ends. */
  lemma GiveUpPush(c: Config, s: System) returns (steps: seq<Step>, t: System)
    requires OneTry(c) && PushLost(c, s)
    ensures CanRun(c, s, steps) && Run(c, s, steps) == t
    ensures Safe(c, t) && SenderOk(c, t) && t.sender.running && Parked(t)
    ensures AtPhase(t, Ready) && t.sender.state == SenderState.Connected
    ensures t.sender.lower == s.sender.lower && t.sender.upper == s.sender.upper && t.sender.acked == s.sender.acked
    ensures t.sender.pending == {}
    ensures t.receiver == s.receiver && t.log == s.log && t.data == s.data && t.yielded == s.yielded
    ensures t.misstep == s.misstep && t.caller.files == s.caller.files
  {
    var fire, repend, s2 := TimeOutLowest(c, s);
    var abandon, s3 := AbandonPush(c, s2);
    OneStep(c, s3, PushReturns);
    StepKeepsInvariants(c, s3, PushReturns);
    t := Do(c, s3, PushReturns);
    RunJoin(c, s2, abandon, [PushReturns]);
    RunJoin(c, s, [fire] + [repend], abandon + [PushReturns]);
    steps := [fire] + [repend] + (abandon + [PushReturns]);
  }

  lemma AbandonPush(c: Config, s: System) returns (steps: seq<Step>, t: System)
    requires OneTry(c) && Safe(c, s) && SenderOk(c, s) && s.sender.running && Parked(s)
    requires s.sender.pending == {s.sender.lower} && s.sender.lower < s.sender.upper
    requires s.sender.lower in s.sender.retry && s.sender.state == SenderState.Pushing
    ensures CanRun(c, s, steps) && Run(c, s, steps) == t
    ensures Safe(c, t) && SenderOk(c, t)
    ensures t.sender == s.sender.(pending := {}, state := SenderState.Connected)
    ensures t == s.(sender := t.sender, clock := t.clock, abandoned := t.abandoned)
  {
    var popped := PopOnly(c, s, s.sender.lower);
    StepKeepsInvariants(c, popped, Process(s.clock));
    LimitMet(c, popped, s.clock);
    TwoSteps(c, s, Pop, Process(s.clock));
    steps, t := [Pop] + [Process(s.clock)], Do(c, popped, Process(s.clock));
  }

  lemma LimitMet(c: Config, s: System, now: int)
    requires Enabled(c, s, Process(now)) && c.maxRetry == 0 && s.sender.state == SenderState.Pushing
    requires s.held.value == s.sender.lower < s.sender.upper && s.sender.lower in s.sender.retry
    requires s.sender.lower !in s.sender.acked
    ensures var t := Do(c, s, Process(now));
      && t.sender == s.sender.(state := SenderState.Connected)
      && t == s.(sender := t.sender, held := None, clock := now, abandoned := t.abandoned)
  {
    assert Abandons(c, s.sender, s.sender.lower);
  }

  /** The state after disconnect has numbered its DisconnReq. */
  function Disconnected(s: System): System {
    var p := Packet(VERSION, DisconnReq, s.sender.upper, []);
    s.(sender := InsertPacket(s.sender.(upper := s.sender.upper + 1, state := SenderState.Disconnecting), p),
       log := s.log + [p],
       caller := s.caller.(phase := Phase.Disconnecting, stage := Outside))
  }

  lemma NumberDisconnect(c: Config, s: System) returns (steps: seq<Step>)
    requires OneTry(c) && Safe(c, s) && SenderOk(c, s)
    requires AtPhase(s, Ready) && s.sender.state == SenderState.Connected && s.sender.lower + 1 == s.sender.upper
    ensures CanRun(c, s, steps) && Run(c, s, steps) == Disconnected(s)
    ensures Safe(c, Disconnected(s)) && SenderOk(c, Disconnected(s))
  {
    OneStep(c, s, StartDisconnect);
    StepKeepsInvariants(c, s, StartDisconnect);
    var called := Do(c, s, StartDisconnect);
    var number, numbered := NumberNext(c, called);
    RunJoin(c, s, [StartDisconnect], number);
    steps := [StartDisconnect] + number;
  }

  /** disconnect numbers DisconnReq right behind the lost DataPush, and the network gets it. */
  lemma SendDisconnect(c: Config, s: System) returns (steps: seq<Step>, t: System, p: Packet)
    requires OneTry(c) && Safe(c, s) && SenderOk(c, s) && s.sender.running && Parked(s)
    requires AtPhase(s, Ready) && s.sender.state == SenderState.Connected
    requires s.sender.lower + 1 == s.sender.upper && s.sender.pending == {}
    ensures CanRun(c, s, steps) && Run(c, s, steps) == t
    ensures Safe(c, t) && t.log == s.log + [p] && p == Packet(VERSION, DisconnReq, |s.log|, [])
    ensures p in t.data && s.data <= t.data && t.receiver == s.receiver && t.yielded == s.yielded
    ensures t.misstep == s.misstep && t.caller.files == s.caller.files
  {
    NextIsNew(c, s);
    p := Packet(VERSION, DisconnReq, s.sender.upper, []);
    var number := NumberDisconnect(c, s);
    var numbered := Disconnected(s);
    assert numbered.sender.pending == {s.sender.upper};
    var send;
    send, t := SendOnly(c, numbered, s.sender.upper);
    RunJoin(c, s, number, send);
    steps := number + send;
  }

  lemma SendOnly(c: Config, s: System, n: nat) returns (steps: seq<Step>, t: System)
    requires c.Valid() && Safe(c, s) && SenderOk(c, s) && s.sender.running && Parked(s)
    requires s.sender.pending == {n} && n !in s.sender.retry && n in s.sender.pool
    requires s.sender.lower <= n && s.sender.lower < s.sender.upper && n !in s.sender.acked
    ensures CanRun(c, s, steps) && Run(c, s, steps) == t
    ensures Safe(c, t)
    ensures t == s.(sender := t.sender, clock := t.clock, data := s.data + {s.sender.pool[n]})
  {
    var popped := PopOnly(c, s, n);
    StepKeepsInvariants(c, popped, Process(s.clock));
    TransmissionEffect(c, popped, s.clock);
    TwoSteps(c, s, Pop, Process(s.clock));
    steps, t := [Pop] + [Process(s.clock)], Do(c, popped, Process(s.clock));
  }

  /** From a connected pair: the push times out and DisconnReq is on its way, two ahead of the receiver. */
  lemma DisconnectAfterLostPush(c: Config, s: System, file: Bytes) returns (steps: seq<Step>, t: System, p: Packet)
    requires OneTry(c) && ReadyAtRest(c, s) && s.abandoned == {}
    ensures CanRun(c, s, steps) && Run(c, s, steps) == t
    ensures Safe(c, t) && t.receiver == s.receiver && p in t.data && s.data <= t.data && !t.misstep
    ensures p == Packet(VERSION, DisconnReq, s.receiver.first + 1, [])
    ensures t.log == s.log + [Packet(VERSION, DataPush, |s.log|, [])] + [p]
    ensures t.caller.files == s.caller.files + [file] && t.yielded == s.yielded
  {
    var lose, lost := LosePush(c, s, file);
    var giveUp, gaveUp := GiveUpPush(c, lost);
    RunJoin(c, s, lose, giveUp);
    var disconnect;
    disconnect, t, p := SendDisconnect(c, gaveUp);
    RunJoin(c, s, lose + giveUp, disconnect);
    steps := lose + giveUp + disconnect;
  }

  /** In a session with one send, DisconnReq can reach the receiver before DataPush has: disconnect does
      not wait for what the timed-out send left outstanding. */
  lemma DisconnReqCanArriveEarly(c: Config, file: Bytes) returns (s: System, p: Packet)
    requires OneTry(c)
    ensures Reachable(c, s) && s.caller.files == [file] && !s.misstep
    ensures Enabled(c, s, Deliver(p)) && p.kind == DisconnReq && p.number > s.receiver.first
  {
    var connect, s1 := Connect(c);
    var disconnect;
    disconnect, s, p := DisconnectAfterLostPush(c, s1, file);
    RunJoin(c, Init(c), connect, disconnect);
    assert CanRun(c, Init(c), connect + disconnect);
  }

  // ---- Two sends ----

  /** The network brings the packets of a list one after the other. */
  lemma {:induction false} DeliverAll(c: Config, s: System, ps: seq<Packet>) returns (steps: seq<Step>, t: System)
    requires forall p :: p in ps ==> p in s.data && IsRequest(p.kind)
    ensures CanRun(c, s, steps) && Run(c, s, steps) == t
    ensures t.receiver == ReceiveAll(c, s.receiver, ps) && t.log == s.log && t.caller == s.caller
    ensures s.misstep ==> t.misstep
    decreases |ps|
  {
    if |ps| == 0 {
      steps, t := [], s;
    } else {
      var deliver := Deliver(ps[0]);
      OneStep(c, s, deliver);
      DeliveryTouchesNoSender(c, s, ps[0]);
      var rest;
      rest, t := DeliverAll(c, Do(c, s, deliver), ps[1..]);
      RunJoin(c, s, [deliver], rest);
      steps := [deliver] + rest;
    }
  }

  /** A connected receiver past a transfer takes a DisconnReq that is one too early, and then hears again
      all that it has written. */
  lemma EarlyDisconnectDuplicates(c: Config, s: System, p: Packet) returns (steps: seq<Step>, t: System)
    requires OneTry(c) && Safe(c, s) && InLog(s.log, p) && p.kind == DisconnReq && p in s.data
    requires s.receiver.state == RM.Connected && !s.receiver.done && s.receiver.first >= 2
    requires p.number == s.receiver.first + 1
    requires forall q :: q in s.log[..s.receiver.first] ==> q in s.data
    ensures CanRun(c, s, steps) && Run(c, s, steps) == t
    ensures t.misstep && t.log == s.log && t.caller == s.caller
    ensures t.receiver.out == s.receiver.out + s.receiver.out
  {
    var deliver, again := Deliver(p), s.log[..s.receiver.first];
    assert Missteps(s.receiver, p);
    MisstepDuplicatesOutput(c, s.receiver, p, s.log);
    OneStep(c, s, deliver);
    DeliveryTouchesNoSender(c, s, p);
    var rest;
    rest, t := DeliverAll(c, Do(c, s, deliver), again);
    RunJoin(c, s, [deliver], rest);
    steps := [deliver] + rest;
  }

  /** A session of two sends, the second of which times out before a byte of it is numbered, can end with
      the first file written twice, although the sender numbered it once. */
  lemma TwoSendsCanDuplicate(c: Config, file: Bytes, second: Bytes) returns (t: System)
    requires OneTry(c)
    ensures Reachable(c, t) && t.caller.files == [file, second] && t.misstep
    ensures Payloads(t.log) == file && t.receiver.out == file + file
  {
    var connect, s1 := Connect(c);
    var send, s2 := SendCanComplete(c, s1, file);
    var disconnect, s3, p := DisconnectAfterLostPush(c, s2, second);
    AtRestLog(c, s2, s3, p);
    var again, s4 := EarlyDisconnectDuplicates(c, s3, p);
    t := s4;
    RunJoin(c, s2, disconnect, again);
    RunJoin(c, s1, send, disconnect + again);
    RunJoin(c, Init(c), connect, send + (disconnect + again));
    assert CanRun(c, Init(c), connect + (send + (disconnect + again)));
  }

  /** At rest the output is all that was numbered; two control packets add nothing. */
  lemma AtRestLog(c: Config, s: System, t: System, p: Packet)
    requires AtRest(c, s) && p.payload == []
    requires t.log == s.log + [Packet(VERSION, DataPush, |s.log|, [])] + [p] && s.data <= t.data
    ensures Payloads(t.log) == s.receiver.out
    ensures s.receiver.first == |s.log| && t.log[..s.receiver.first] == s.log
    ensures forall q :: q in t.log[..s.receiver.first] ==> q in t.data
  {
    var push := Packet(VERSION, DataPush, |s.log|, []);
    PayloadsSnoc(s.log, push);
    PayloadsSnoc(s.log + [push], p);
    assert s.log[..|s.log|] == s.log;
  }
}

/** A run in which a number that has been cleaned up is pended once more: remove_event does nothing to an event
    that has timed out and is not registered again. */
module StaleEvents {
  import opened Packets
  import opened Settings
  import opened TimerModel
  import opened SenderModel
  import opened System
  import opened SenderFacts
  import opened ReceiverFacts
  import opened Safety
  import opened Progress
  import opened Transfers
  import RM = ReceiverModel

  predicate FastGoBackN(c: Config) {
    c.Valid() && !c.selectiveRepeat && c.fastRetransmit && c.sendWindow >= 2
  }

  ghost predicate Sound(c: Config, s: System) {
    Safe(c, s) && SenderOk(c, s) && s.sender.running && Parked(s)
  }

  /** An ack heard from its datagram to its slide. */
  lemma HearAll(c: Config, s: System, ack: Packet) returns (steps: seq<Step>, t: System)
    requires FastGoBackN(c) && Sound(c, s) && ack in s.acks
    ensures CanRun(c, s, steps) && Run(c, s, steps) == t && Sound(c, t)
    ensures t == s.(sender :=
      CumulativeAck(c, s.sender.(state := StateAfter(s.sender.state, ack.kind)), ack.number))
  {
    var hear, acking := HearAnswer(c, s, ack);
    OneStep(c, acking, Ack);
    StepKeepsInvariants(c, acking, Ack);
    RunJoin(c, s, hear, [Ack]);
    steps, t := hear + [Ack], Do(c, acking, Ack);
  }

  /** DataPush is outstanding and timed; ConnAck, which names it, can be heard again. */
  ghost predicate PushTimed(c: Config, s: System, ack: Packet) {
    && Sound(c, s) && Open(s.receiver) && s.sender.state == SenderState.Pushing
    && s.sender.lower + 1 == s.sender.upper && s.sender.lower == s.receiver.first
    && s.sender.timer.deadlines.Keys == {s.sender.lower} && s.sender.timer.timedOut == {}
    && ack in s.acks && ack.kind == ConnAck && ack.number == s.sender.lower
    && s.log[s.sender.lower] in s.data
  }

  lemma SendPush(c: Config, s: System, file: Bytes) returns (steps: seq<Step>, t: System, ack: Packet)
    requires FastGoBackN(c) && ReadyAtRest(c, s) && |s.log| == 1 && s.sender.dups == 0
    ensures CanRun(c, s, steps) && Run(c, s, steps) == t
    ensures PushTimed(c, t, ack) && t.sender.dups == 0 && t.sender.pending == {}
  {
    CallAtRest(c, s, StartSend(file));
    var called := Do(c, s, StartSend(file));
    var number := NumberAsked(c, called);
    var numbered := AfterNumbering(called);
    var send := SendingPart(c, numbered);
    var sent := Run(c, numbered, send);
    RunJoin(c, called, number, send);
    RunJoin(c, s, [StartSend(file)], number + send);
    steps := [StartSend(file)] + (number + send);
    var deliver := Deliver(s.log[0]);
    ack := AckedAgain(c, sent, s.log[0]);
    t := Do(c, sent, deliver);
    OneStep(c, sent, deliver);
    RunJoin(c, s, steps, [deliver]);
    steps := steps + [deliver];
    assert t.sender.pending == {};
  }

  /** ConnReq is delivered a second time, and acked with the number the receiver expects. */
  lemma AckedAgain(c: Config, s: System, p: Packet) returns (ack: Packet)
    requires FastGoBackN(c) && Sound(c, s) && Open(s.receiver) && s.receiver.first > 0
    requires p in s.data && p.kind == ConnReq && p.number == 0
    ensures Enabled(c, s, Deliver(p)) && ack.kind == ConnAck && ack.number == s.receiver.first
    ensures Do(c, s, Deliver(p)) == s.(acks := s.acks + {ack}) && Sound(c, Do(c, s, Deliver(p)))
  {
    ack := RM.Receive(c, s.receiver, p).ack.value;
    StepKeepsInvariants(c, s, Deliver(p));
  }

  /** The third duplicate pends the number that the timer holds. */
  lemma ThreeDuplicates(c: Config, s: System, ack: Packet) returns (steps: seq<Step>, t: System)
    requires FastGoBackN(c) && PushTimed(c, s, ack) && s.sender.dups == 0 && s.sender.pending == {}
    ensures CanRun(c, s, steps) && Run(c, s, steps) == t
    ensures PushTimed(c, t, ack) && t.sender.pending == {t.sender.lower}
  {
    var first, s1 := HearAll(c, s, ack);
    assert PushTimed(c, s1, ack) && s1.sender.dups == 1 && s1.sender.pending == {};
    var second, s2 := HearAll(c, s1, ack);
    assert PushTimed(c, s2, ack) && s2.sender.dups == 2 && s2.sender.pending == {};
    var third, s3 := HearAll(c, s2, ack);
    assert Range(s.sender.lower, s.sender.upper) == {s.sender.lower};
    RunJoin(c, s1, second, third);
    RunJoin(c, s, first, second + third);
    steps, t := first + (second + third), s3;
  }

  /** The number times out while it is pending. */
  lemma TimeOut(c: Config, s: System, conn: Packet) returns (steps: seq<Step>, t: System)
    requires FastGoBackN(c) && PushTimed(c, s, conn)
    ensures CanRun(c, s, steps) && Run(c, s, steps) == t && Sound(c, t)
    ensures t == s.(sender := s.sender.(timer := Timer(map[], {s.sender.lower})), clock := t.clock)
  {
    var now := LatestDeadline(s.sender.timer.deadlines, s.clock);
    var fire := Fire(now, now);
    assert s.sender.lower in s.sender.timer.Due(now);
    assert s.sender.timer.Due(now + SLACK) == {s.sender.lower};
    assert s.sender.timer.deadlines - {s.sender.lower} == map[];
    OneStep(c, s, fire);
    StepKeepsInvariants(c, s, fire);
    steps, t := [fire], Do(c, s, fire);
  }

  /** The DataPush is delivered and acked. */
  lemma AckPush(c: Config, s: System) returns (steps: seq<Step>, t: System)
    requires FastGoBackN(c) && LowestSent(c, s) && Open(s.receiver)
    requires s.sender.lower + 1 == s.sender.upper && s.sender.lower == s.receiver.first
    ensures CanRun(c, s, steps) && Run(c, s, steps) == t && Sound(c, t)
    ensures t.sender.lower == s.sender.lower + 1 && t.sender.pending == s.sender.pending
    ensures t.sender.timer == s.sender.timer
  {
    var deliver, ack := DeliverLowest(c, s);
    var delivered := Run(c, s, deliver);
    DeliveryTouchesNoSender(c, s, s.log[s.sender.lower]);
    var hear;
    hear, t := HearAll(c, delivered, ack);
    RunJoin(c, s, deliver, hear);
    steps := deliver + hear;
  }

  /** The number times out while it is pending, and is then acked. */
  lemma TimeOutAndAck(c: Config, s: System, conn: Packet) returns (steps: seq<Step>, t: System)
    requires FastGoBackN(c) && PushTimed(c, s, conn) && s.sender.pending == {s.sender.lower}
    ensures CanRun(c, s, steps) && Run(c, s, steps) == t
    ensures Sound(c, t) && t.sender.lower == s.sender.lower + 1 && t.sender.pending == {s.sender.lower}
    ensures t.sender.timer == Timer(map[], {s.sender.lower})
  {
    var fire, fired := TimeOut(c, s, conn);
    assert OthersHaveBudget(c, fired);
    var ack;
    ack, t := AckPush(c, fired);
    RunJoin(c, s, fire, ack);
    steps := fire + ack;
  }

  /** send_handler cleans the number up, and the timed-out set gives it back. */
  lemma CleanAndRepend(c: Config, s: System, n: nat) returns (steps: seq<Step>, t: System)
    requires c.Valid() && Sound(c, s) && n + 1 == s.sender.lower
    requires s.sender.pending == {n} && s.sender.timer == Timer(map[], {n})
    ensures CanRun(c, s, steps) && Run(c, s, steps) == t
    ensures n < t.sender.lower && n !in t.sender.pool && n !in t.sender.retry && n in t.sender.pending
  {
    var popped := PopOnly(c, s, n);
    var cleaned := Do(c, popped, Process(s.clock));
    assert cleaned.sender == CleanUp(popped.sender, n);
    TwoSteps(c, s, Pop, Process(s.clock));
    OneStep(c, cleaned, Repend);
    t := Do(c, cleaned, Repend);
    RunJoin(c, s, [Pop] + [Process(s.clock)], [Repend]);
    steps := [Pop] + [Process(s.clock)] + [Repend];
  }

  /** A number that is acked and has left pool and retry counts can be in the pending queue once more. */
  lemma CleanedUpNumberIsPendedAgain(c: Config, file: Bytes) returns (s: System, n: nat)
    requires FastGoBackN(c)
    ensures Reachable(c, s)
    ensures n < s.sender.lower && n !in s.sender.pool && n !in s.sender.retry && n in s.sender.pending
  {
    var connect, s1 := Connect(c);
    var send, s2, ack := SendPush(c, s1, file);
    var duplicates, s3 := ThreeDuplicates(c, s2, ack);
    var timeOut, s4 := TimeOutAndAck(c, s3, ack);
    n := s3.sender.lower;
    var clean;
    clean, s := CleanAndRepend(c, s4, n);
    RunJoin(c, s3, timeOut, clean);
    RunJoin(c, s2, duplicates, timeOut + clean);
    RunJoin(c, s1, send, duplicates + (timeOut + clean));
    RunJoin(c, Init(c), connect, send + (duplicates + (timeOut + clean)));
    assert CanRun(c, Init(c), connect + (send + (duplicates + (timeOut + clean))));
  }
}

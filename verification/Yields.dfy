/** When each completed send makes recv yield true exactly once, for any number of sends. */
module Yields {
  import opened Options
  import opened Packets
  import opened Settings
  import opened System
  import opened ReceiverFacts
  import opened Safety
  import opened Session
  import opened SenderFacts
  import opened Runs
  import opened FileTransfer
  import RM = ReceiverModel

  // ---- What an in-order receiver does with the log ----

  function Next(state: RM.ReceiverState, kind: PacketKind): RM.ReceiverState {
    match (state, kind)
    case (Idle, ConnReq) => RM.Connected
    case (Connected, DataPush) => RM.Receiving
    case (Receiving, DataStop) => RM.Connected
    case (Connected, DisconnReq) => RM.Idle
    case _ => state
  }

  /** The state after the first `n` packets in order. */
  function StateAt(log: seq<Packet>, n: nat): RM.ReceiverState
    requires n <= |log|
  {
    if n == 0 then RM.Idle else Next(StateAt(log, n - 1), log[n - 1].kind)
  }

  /** One output for each DataStop among the first `n` packets. */
  function YieldsAt(log: seq<Packet>, n: nat): seq<Bytes>
    requires n <= |log|
  {
    if n == 0 then []
    else YieldsAt(log, n - 1) + if log[n - 1].kind == DataStop then [Payloads(log[..n])] else []
  }

  lemma {:induction false} PrefixDecides(log: seq<Packet>, p: Packet, n: nat)
    requires n <= |log|
    ensures StateAt(log + [p], n) == StateAt(log, n) && YieldsAt(log + [p], n) == YieldsAt(log, n)
  {
    if n > 0 {
      PrefixDecides(log, p, n - 1);
      assert (log + [p])[..n] == log[..n];
    }
  }

  lemma {:induction false} DataChangesNothing(log: seq<Packet>, n: nat, m: nat)
    requires n <= m <= |log|
    requires forall i :: n <= i < m ==> log[i].kind == Data
    ensures StateAt(log, m) == StateAt(log, n) && YieldsAt(log, m) == YieldsAt(log, n)
    decreases m - n
  {
    if n < m {
      DataChangesNothing(log, n, m - 1);
    }
  }

  /** Between ConnReq and DisconnReq the receiver is not idle. */
  lemma {:induction false} NotIdle(log: seq<Packet>, n: nat)
    requires LogOk(log) && 0 < n <= |log| && log[n - 1].kind != DisconnReq
    ensures StateAt(log, n) != RM.Idle
  {
    if n > 1 {
      NotIdle(log, n - 1);
    } else {
      assert StateAt(log, 0) == RM.Idle;
    }
  }

  // ---- The invariant ----

  /** DataPush and DisconnReq are numbered when the receiver has written everything, and no DataPush is
      returned unsent. */
  predicate Flushes(s: System, step: Step) {
    && (step.BumpUpper? && s.caller.stage.Numbered? && s.caller.stage.kind in {DataPush, DisconnReq} ==>
         s.receiver.first == |s.log|)
    && (step.ReturnUnsent? && s.caller.stage.Refused? ==> s.caller.stage.kind != DataPush)
  }

  ghost predicate CallsFlushed(c: Config, s: System, steps: seq<Step>)
    requires CanRun(c, s, steps)
    decreases |steps|
  {
    |steps| == 0 || (Flushes(s, steps[0]) && CallsFlushed(c, Do(c, s, steps[0]), steps[1..]))
  }

  /** No control packet is ahead of the receiver; Data and DataStop follow a DataPush. */
  ghost predicate LogTamed(log: seq<Packet>, first: nat) {
    && (forall i :: 0 <= i < |log| && log[i].kind != Data ==> i <= first)
    && (forall i :: 0 <= i < |log| && log[i].kind in {Data, DataStop} ==> StateAt(log, i) == RM.Receiving)
  }

  /** The phases in which a DataPush has been numbered, and its DataStop has not. */
  predicate InTransfer(caller: Caller) {
    || (caller.phase.Pushing? && !BeforeNumbering(caller.stage))
    || (Transferring(caller.phase) && (caller.phase == Phase.Stopping ==> BeforeNumbering(caller.stage)))
  }

  predicate AboutToStop(caller: Caller) {
    caller.phase == Drained || (caller.phase == Phase.Stopping && BeforeNumbering(caller.stage))
  }

  ghost predicate CallerTamed(s: System) {
    && (InTransfer(s.caller) ==> StateAt(s.log, |s.log|) == RM.Receiving)
    && (AboutToStop(s.caller) ==> s.sender.lower == s.sender.upper)
  }

  ghost predicate ReceiverTamed(r: RM.Receiver, log: seq<Packet>, yielded: seq<Bytes>) {
    && r.first <= |log|
    && (!r.done ==> r.state == StateAt(log, r.first))
    && yielded == YieldsAt(log, r.first)
  }

  ghost predicate Tamed(c: Config, s: System) {
    && Safe(c, s) && !s.misstep
    && LogTamed(s.log, s.receiver.first) && CallerTamed(s)
    && ReceiverTamed(s.receiver, s.log, s.yielded)
  }

  // ---- The caller ----

  lemma CallerKeepsTamed(c: Config, s: System, step: Step)
    requires CallerTamed(s) && Enabled(c, s, step) && CallerStep(step) && Flushes(s, step)
    requires StageOk(s.caller, s.log)
    ensures CallerTamed(Do(c, s, step))
  {
    CallerStepsTouchNoNumber(c, s, step);
    assert PhaseKind(s.caller.phase) == Some(DataPush) <==> s.caller.phase.Pushing?;
  }

  lemma NumberingKeepsLog(log: seq<Packet>, p: Packet, first: nat)
    requires LogTamed(log, first)
    requires p.kind != Data ==> |log| <= first
    requires p.kind in {Data, DataStop} ==> StateAt(log, |log|) == RM.Receiving
    ensures LogTamed(log + [p], first)
  {
    forall i | 0 <= i <= |log|
      ensures StateAt(log + [p], i) == StateAt(log, i)
    {
      PrefixDecides(log, p, i);
    }
  }

  /** Where the caller stands when it numbers a packet. */
  lemma NumberingPlace(c: Config, s: System)
    requires Safe(c, s) && Enabled(c, s, BumpUpper)
    ensures PhaseKind(s.caller.phase) == Some(s.caller.stage.kind)
    ensures s.sender.lower <= s.receiver.first <= |s.log| == s.sender.upper
    ensures s.caller.phase.Pushing? ==> |s.log| > 0 && s.log[|s.log| - 1].kind != DisconnReq
    ensures s.caller.phase == Phase.Connecting ==> |s.log| == 0
  {}

  lemma PushNotIdle(c: Config, s: System)
    requires Safe(c, s) && Enabled(c, s, BumpUpper) && s.caller.phase.Pushing?
    ensures StateAt(s.log, |s.log|) != RM.Idle
  {
    NumberingPlace(c, s);
    NotIdle(s.log, |s.log|);
  }

  /** A number is given to Data and DataStop only in a transfer, and to DataStop only in an empty window. */
  lemma NumberingFits(s: System)
    requires CallerTamed(s) && s.caller.stage.Numbered? && Flushes(s, BumpUpper)
    requires PhaseKind(s.caller.phase) == Some(s.caller.stage.kind)
    requires s.sender.lower <= s.receiver.first <= |s.log| == s.sender.upper
    requires s.caller.phase == Phase.Connecting ==> |s.log| == 0
    ensures s.caller.stage.kind != Data ==> |s.log| <= s.receiver.first
    ensures s.caller.stage.kind in {Data, DataStop} ==> StateAt(s.log, |s.log|) == RM.Receiving
  {}

  lemma BumpKeepsTamed(c: Config, s: System)
    requires c.Valid() && Tamed(c, s) && Enabled(c, s, BumpUpper) && Flushes(s, BumpUpper)
    ensures var t := Do(c, s, BumpUpper);
      LogTamed(t.log, t.receiver.first) && CallerTamed(t) && ReceiverTamed(t.receiver, t.log, t.yielded)
  {
    NumberingPlace(c, s);
    NumberingFits(s);
    if s.caller.phase.Pushing? {
      PushNotIdle(c, s);
    }
    NumberedIsTamed(s, Do(c, s, BumpUpper),
      Packet(VERSION, s.caller.stage.kind, s.caller.stage.number, s.caller.stage.payload));
  }

  lemma NumberedIsTamed(s: System, t: System, p: Packet)
    requires LogTamed(s.log, s.receiver.first) && CallerTamed(s) && ReceiverTamed(s.receiver, s.log, s.yielded)
    requires s.caller.stage.Numbered? && PhaseKind(s.caller.phase) == Some(p.kind)
    requires t.log == s.log + [p] && t.receiver == s.receiver && t.yielded == s.yielded
    requires t.caller == s.caller.(stage := t.caller.stage) && t.caller.stage.Bumped?
    requires p.kind != Data ==> |s.log| <= s.receiver.first
    requires p.kind in {Data, DataStop} ==> StateAt(s.log, |s.log|) == RM.Receiving
    requires s.caller.phase.Pushing? ==> StateAt(s.log, |s.log|) != RM.Idle
    ensures LogTamed(t.log, t.receiver.first) && CallerTamed(t) && ReceiverTamed(t.receiver, t.log, t.yielded)
  {
    NumberingKeepsLog(s.log, p, s.receiver.first);
    NumberingKeepsReceiver(s.receiver, s.log, s.yielded, p);
    OneMoreNumbered(s.log, p);
    BumpKeepsCaller(s, t, p);
  }

  lemma NumberingKeepsReceiver(r: RM.Receiver, log: seq<Packet>, yielded: seq<Bytes>, p: Packet)
    requires ReceiverTamed(r, log, yielded)
    ensures ReceiverTamed(r, log + [p], yielded)
  {
    PrefixDecides(log, p, r.first);
  }

  lemma OneMoreNumbered(log: seq<Packet>, p: Packet)
    ensures StateAt(log + [p], |log| + 1) == Next(StateAt(log, |log|), p.kind)
  {
    PrefixDecides(log, p, |log|);
    OneMore(log + [p], |log|);
  }

  lemma BumpKeepsCaller(s: System, t: System, p: Packet)
    requires CallerTamed(s) && s.caller.stage.Numbered? && PhaseKind(s.caller.phase) == Some(p.kind)
    requires t.log == s.log + [p] && t.caller == s.caller.(stage := t.caller.stage) && t.caller.stage.Bumped?
    requires StateAt(t.log, |t.log|) == Next(StateAt(s.log, |s.log|), p.kind)
    requires s.caller.phase.Pushing? ==> StateAt(s.log, |s.log|) != RM.Idle
    ensures CallerTamed(t)
  {}

  // ---- The receiver ----

  /** Behind the number the receiver expects there is only Data, and none behind a DataStop. */
  lemma OnlyDataAhead(log: seq<Packet>, first: nat)
    requires LogTamed(log, first) && first < |log|
    ensures forall i :: first < i < |log| ==> log[i].kind == Data
    ensures log[first].kind == DataStop ==> first + 1 == |log|
  {
    if log[first].kind == DataStop && first + 1 < |log| {
      assert log[first + 1].kind == Data;
    }
  }

  /** A packet that the receiver accepts is Data, or the one that it expects. */
  lemma AcceptedInOrder(c: Config, r: RM.Receiver, p: Packet, log: seq<Packet>, yielded: seq<Bytes>)
    requires c.Valid() && LogOk(log) && ReceiverOk(c, r, log) && InLog(log, p)
    requires r.first == 0 ==> |log| <= 1
    requires LogTamed(log, r.first) && ReceiverTamed(r, log, yielded)
    requires !r.done && !RM.IsOld(r, p) && !RM.IsBeyond(r, p)
    ensures p.kind != Data ==> p.number == r.first
    ensures r.state == RM.Idle ==> r.first == 0
    ensures !Missteps(r, p)
  {
    assert log[p.number] == p;
    if r.state == RM.Idle && r.first > 0 {
      assert log[2].kind == DisconnReq;
      assert log[0].kind != DisconnReq;
      NotIdle(log, r.first);
    }
  }

  /** The receiver yields true exactly at a DataStop. */
  lemma YieldIsAtStop(c: Config, r: RM.Receiver, p: Packet)
    requires IsRequest(p.kind) && (p.kind == DataStop ==> r.state == RM.Receiving && p.number < Slid(c, r, p).first)
    requires Slid(c, r, p).state == RM.Transition(c, r, p).state
    ensures var reply := RM.Accept(c, r, p);
      && reply.receiver == Slid(c, r, p).(done := reply.receiver.done)
      && (reply.event == Some(true) <==> p.kind == DataStop)
  {}

  lemma AcceptKeepsTamed(c: Config, r: RM.Receiver, p: Packet, log: seq<Packet>, yielded: seq<Bytes>)
    requires c.Valid() && LogOk(log) && ReceiverOk(c, r, log) && InLog(log, p)
    requires r.first == 0 ==> |log| <= 1
    requires LogTamed(log, r.first) && ReceiverTamed(r, log, yielded)
    requires !r.done && !RM.IsOld(r, p) && !RM.IsBeyond(r, p)
    ensures var reply := RM.Accept(c, r, p);
      ReceiverTamed(reply.receiver, log,
        if reply.event == Some(true) then yielded + [reply.receiver.out] else yielded)
  {
    AcceptedInOrder(c, r, p, log, yielded);
    SlideInOrder(c, r, p, log);
    WrittenIsTamed(r, Slid(c, r, p), p, log);
    YieldIsAtStop(c, r, p);
  }

  lemma SlideInOrder(c: Config, r: RM.Receiver, p: Packet, log: seq<Packet>)
    requires c.Valid() && LogOk(log) && ReceiverOk(c, r, log) && InLog(log, p)
    requires !r.done && !RM.IsOld(r, p) && !RM.IsBeyond(r, p) && !Missteps(r, p)
    requires r.first == 0 ==> |log| <= 1
    requires r.state == RM.Idle ==> r.first == 0
    requires p.kind != Data ==> p.number == r.first
    ensures var r' := Slid(c, r, p);
      && r.first <= r'.first <= |log| && r'.out == Payloads(log[..r'.first])
      && r'.state == Next(r.state, p.kind) == RM.Transition(c, r, p).state
      && (r'.first > r.first ==> p.number == r.first)
      && (p.kind != Data ==> r'.first > r.first)
  {
    SlidKeeps(c, r, p, log);
    BufferMatches(c, r, p, log);
    SlideDelivers(RM.Buffer(RM.Transition(c, r, p), p), log);
  }

  lemma WrittenIsTamed(r: RM.Receiver, r': RM.Receiver, p: Packet, log: seq<Packet>)
    requires LogTamed(log, r.first) && InLog(log, p)
    requires r.first <= r'.first <= |log| && r'.out == Payloads(log[..r'.first])
    requires r.state == StateAt(log, r.first) && r'.state == Next(r.state, p.kind)
    requires p.kind != Data ==> r'.first > r.first
    requires r'.first > r.first ==> p.number == r.first
    ensures r'.state == StateAt(log, r'.first)
    ensures YieldsAt(log, r'.first) == YieldsAt(log, r.first) + if p.kind == DataStop then [r'.out] else []
    ensures p.kind == DataStop ==> r.state == RM.Receiving
  {
    if r'.first > r.first {
      WrittenRun(log, r.first, r'.first);
    }
  }

  lemma WrittenRun(log: seq<Packet>, n: nat, m: nat)
    requires LogTamed(log, n) && n < m <= |log|
    ensures StateAt(log, m) == Next(StateAt(log, n), log[n].kind)
    ensures YieldsAt(log, m) == YieldsAt(log, n) + if log[n].kind == DataStop then [Payloads(log[..m])] else []
  {
    OnlyDataAhead(log, n);
    DataChangesNothing(log, n + 1, m);
    OneMore(log, n);
  }

  lemma OneMore(log: seq<Packet>, n: nat)
    requires n < |log|
    ensures StateAt(log, n + 1) == Next(StateAt(log, n), log[n].kind)
    ensures YieldsAt(log, n + 1) == YieldsAt(log, n) + if log[n].kind == DataStop then [Payloads(log[..n + 1])] else []
  {}

  lemma DeliverKeepsTamed(c: Config, s: System, p: Packet)
    requires c.Valid() && Tamed(c, s) && Enabled(c, s, Deliver(p))
    ensures Tamed(c, Do(c, s, Deliver(p)))
  {
    var r, t := s.receiver, Do(c, s, Deliver(p));
    if !r.done && !RM.IsOld(r, p) && !RM.IsBeyond(r, p) {
      AcceptedInOrder(c, r, p, s.log, s.yielded);
      AcceptKeepsTamed(c, r, p, s.log, s.yielded);
    }
    DeliverSafe(c, s, p);
    DeliveryTouchesNoSender(c, s, p);
  }

  // ---- Runs ----

  lemma FrameKeepsTamed(c: Config, s: System, t: System)
    requires Tamed(c, s) && Safe(c, t)
    requires t.log == s.log && t.receiver == s.receiver && t.yielded == s.yielded && t.misstep == s.misstep
    requires t.sender.upper == s.sender.upper && s.sender.lower <= t.sender.lower
    requires t.caller == s.caller || (t.caller == s.caller.(stage := Outside) && s.caller.stage.Bumped?)
    ensures Tamed(c, t)
  {}

  lemma OtherStepsFrame(c: Config, s: System, step: Step)
    requires Enabled(c, s, step)
    requires SenderThreadStep(step) || ListenerStep(step) || step.Ack? || step.Insert? || step.Lose?
    ensures var t := Do(c, s, step);
      && t.log == s.log && t.receiver == s.receiver && t.yielded == s.yielded && t.misstep == s.misstep
      && t.sender.upper == s.sender.upper && s.sender.lower <= t.sender.lower
      && (t.caller == s.caller || (t.caller == s.caller.(stage := Outside) && s.caller.stage.Bumped?))
  {
    if step.Ack? {
      SlideOnlyForward(c, s.sender, s.listener.ack.number);
    } else if step.Process? {
      ProcessKeepsWindow(c, s.sender, s.held.value, step.now);
    }
  }

  lemma StepKeepsTamed(c: Config, s: System, step: Step)
    requires c.Valid() && Tamed(c, s) && Enabled(c, s, step) && Flushes(s, step)
    ensures Tamed(c, Do(c, s, step))
  {
    if step.Deliver? {
      DeliverKeepsTamed(c, s, step.packet);
    } else {
      StepSafe(c, s, step);
      NoNewMisstep(c, s, step);
      if CallerStep(step) {
        CallerStepsTouchNoNumber(c, s, step);
        CallerKeepsTamed(c, s, step);
      } else if step.BumpUpper? {
        BumpKeepsTamed(c, s);
      } else {
        OtherStepsFrame(c, s, step);
        FrameKeepsTamed(c, s, Do(c, s, step));
      }
    }
  }

  lemma {:induction false} RunKeepsTamed(c: Config, s: System, steps: seq<Step>)
    requires c.Valid() && Tamed(c, s) && CanRun(c, s, steps) && CallsFlushed(c, s, steps)
    ensures Tamed(c, Run(c, s, steps))
    decreases |steps|
  {
    if |steps| > 0 {
      StepKeepsTamed(c, s, steps[0]);
      RunKeepsTamed(c, Do(c, s, steps[0]), steps[1..]);
    }
  }

  /** Any number of sends: if each DataPush and the DisconnReq are numbered when the receiver has written
      everything (an empty window will do), then each DataStop that is written has made recv yield true
      exactly once, with the output up to it; there is no misstep and the output is in order. */
  lemma EachSendYieldsOnce(c: Config, steps: seq<Step>)
    requires c.Valid() && CanRun(c, Init(c), steps) && CallsFlushed(c, Init(c), steps)
    ensures var t := Run(c, Init(c), steps);
      && !t.misstep && t.receiver.first <= |t.log| && t.receiver.out == Payloads(t.log[..t.receiver.first])
      && t.yielded == YieldsAt(t.log, t.receiver.first)
  {
    InitSafe(c);
    RunKeepsTamed(c, Init(c), steps);
  }

  // ---- DataStop, without any condition ----

  /** send numbers its DataStop in an empty window. */
  ghost predicate StopsTamed(s: System) {
    && (AboutToStop(s.caller) ==> s.sender.lower == s.sender.upper)
    && (forall i :: 0 <= i < |s.log| && s.log[i].kind == DataStop ==> i <= s.receiver.first)
  }

  lemma StopsFrame(s: System, t: System)
    requires StopsTamed(s) && t.log == s.log && s.receiver.first <= t.receiver.first
    requires t.sender.upper == s.sender.upper && s.sender.lower <= t.sender.lower <= t.sender.upper
    requires AboutToStop(t.caller) ==> AboutToStop(s.caller)
    ensures StopsTamed(t)
  {}

  lemma CallerKeepsStops(c: Config, s: System, step: Step)
    requires StopsTamed(s) && Enabled(c, s, step) && CallerStep(step)
    ensures StopsTamed(Do(c, s, step))
  {
    CallerStepsTouchNoNumber(c, s, step);
  }

  lemma BumpKeepsStops(c: Config, s: System)
    requires Safe(c, s) && StopsTamed(s) && Enabled(c, s, BumpUpper)
    ensures StopsTamed(Do(c, s, BumpUpper))
  {
    assert PhaseKind(s.caller.phase) == Some(s.caller.stage.kind);
  }

  lemma StepKeepsStops(c: Config, s: System, step: Step)
    requires c.Valid() && Safe(c, s) && StopsTamed(s) && Enabled(c, s, step) && !Do(c, s, step).misstep
    ensures StopsTamed(Do(c, s, step)) && Safe(c, Do(c, s, step))
  {
    StepWithoutMisstep(c, s, step);
    StepSafe(c, s, step);
    if CallerStep(step) {
      CallerKeepsStops(c, s, step);
    } else if step.BumpUpper? {
      BumpKeepsStops(c, s);
    } else if step.Deliver? {
      DeliverSafe(c, s, step.packet);
      DeliveryTouchesNoSender(c, s, step.packet);
      StopsFrame(s, Do(c, s, step));
    } else {
      OtherStepsFrame(c, s, step);
      StopsFrame(s, Do(c, s, step));
    }
  }

  lemma {:induction false} RunKeepsStops(c: Config, s: System, steps: seq<Step>)
    requires c.Valid() && Safe(c, s) && StopsTamed(s) && CanRun(c, s, steps) && !Run(c, s, steps).misstep
    ensures StopsTamed(Run(c, s, steps)) && Safe(c, Run(c, s, steps))
    decreases |steps|
  {
    if |steps| > 0 {
      var next := Do(c, s, steps[0]);
      if next.misstep {
        RunMisstepStays(c, next, steps[1..]);
      } else {
        StepKeepsStops(c, s, steps[0]);
        RunKeepsStops(c, next, steps[1..]);
      }
    }
  }

  /** After any number of sends and any retry limits, no DataStop is ahead of the receiver. */
  lemma EveryStopArrivesInOrder(c: Config, s: System, p: Packet)
    requires c.Valid() && Reachable(c, s) && !s.misstep
    requires p in s.data && p.kind == DataStop
    ensures p.number <= s.receiver.first
  {
    var steps :| CanRun(c, Init(c), steps) && Run(c, Init(c), steps) == s;
    InitSafe(c);
    RunKeepsStops(c, Init(c), steps);
    assert InLog(s.log, p);
  }
}

/** Until the sender has numbered a DisconnReq, the receiver's session is open and nothing has gone wrong. */
module BeforeDisconnect {
  import opened Options
  import opened Packets
  import opened Settings
  import opened System
  import opened ReceiverFacts
  import opened Safety
  import opened FileTransfer
  import RM = ReceiverModel

  ghost predicate HasDisconnect(log: seq<Packet>) {
    exists i :: 0 <= i < |log| && log[i].kind == DisconnReq
  }

  lemma LogGrows(c: Config, s: System, step: Step)
    requires Enabled(c, s, step)
    ensures s.log <= Do(c, s, step).log
  {
    if step.Deliver? {
      DeliveryTouchesNoSender(c, s, step.packet);
    }
  }

  lemma {:induction false} RunLogGrows(c: Config, s: System, steps: seq<Step>)
    requires CanRun(c, s, steps)
    ensures s.log <= Run(c, s, steps).log
    decreases |steps|
  {
    if |steps| > 0 {
      LogGrows(c, s, steps[0]);
      RunLogGrows(c, Do(c, s, steps[0]), steps[1..]);
    }
  }

  /** Only a DisconnReq makes a receiver idle again, ends its loop or makes a misstep. */
  lemma OtherKindsKeepOpen(c: Config, r: RM.Receiver, p: Packet, log: seq<Packet>)
    requires c.Valid() && LogOk(log) && ReceiverOk(c, r, log) && InLog(log, p)
    requires r.first == 0 ==> |log| <= 1
    requires Open(r) && p.kind != DisconnReq
    ensures !Missteps(r, p) && Open(RM.Receive(c, r, p).receiver)
  {
    if !RM.IsOld(r, p) && !RM.IsBeyond(r, p) {
      SlidKeeps(c, r, p, log);
    }
  }

  lemma StepOpen(c: Config, s: System, step: Step)
    requires c.Valid() && Safe(c, s) && !s.misstep && Open(s.receiver) && Enabled(c, s, step)
    requires !HasDisconnect(s.log)
    ensures var t := Do(c, s, step); Safe(c, t) && !t.misstep && Open(t.receiver)
  {
    if step.Deliver? {
      var p := step.packet;
      assert s.log[p.number].kind != DisconnReq;
      OtherKindsKeepOpen(c, s.receiver, p, s.log);
      DeliveryTouchesNoSender(c, s, p);
    } else {
      OnlyDeliveryReceives(c, s, step);
    }
    NoNewMisstep(c, s, step);
    StepSafe(c, s, step);
  }

  lemma OnlyDeliveryReceives(c: Config, s: System, step: Step)
    requires Enabled(c, s, step) && !step.Deliver?
    ensures Do(c, s, step).receiver == s.receiver
  {}

  lemma {:induction false} RunOpen(c: Config, s: System, steps: seq<Step>)
    requires c.Valid() && Safe(c, s) && !s.misstep && Open(s.receiver) && CanRun(c, s, steps)
    requires !HasDisconnect(Run(c, s, steps).log)
    ensures var t := Run(c, s, steps); Safe(c, t) && !t.misstep && Open(t.receiver)
    decreases |steps|
  {
    if |steps| > 0 {
      RunLogGrows(c, s, steps);
      StepOpen(c, s, steps[0]);
      RunOpen(c, Do(c, s, steps[0]), steps[1..]);
    }
  }

  /** A receiver that is done, idles past number 0 or took a misstep implies a numbered DisconnReq. */
  lemma OpenBeforeDisconnect(c: Config, s: System)
    requires c.Valid() && Reachable(c, s) && !HasDisconnect(s.log)
    ensures !s.misstep && Open(s.receiver) && Safe(c, s)
  {
    var steps :| CanRun(c, Init(c), steps) && Run(c, Init(c), steps) == s;
    InitSafe(c);
    RunOpen(c, Init(c), steps);
  }

  // ---- disconnect is the caller's last call ----

  ghost predicate DisconnectIsLast(s: System) {
    && (s.caller.stage == Outside || PhaseKind(s.caller.phase) == Some(s.caller.stage.kind))
    && (HasDisconnect(s.log) ==>
         s.caller.phase == Finished || (s.caller.phase == Phase.Disconnecting && !BeforeNumbering(s.caller.stage)))
  }

  lemma StepLast(c: Config, s: System, step: Step)
    requires DisconnectIsLast(s) && Enabled(c, s, step)
    ensures DisconnectIsLast(Do(c, s, step))
  {
    if step.BumpUpper? {
      var p := Packet(VERSION, s.caller.stage.kind, s.caller.stage.number, s.caller.stage.payload);
      assert Do(c, s, step).log == s.log + [p];
    } else {
      OnlyBumpNumbers(c, s, step);
    }
  }

  lemma OnlyBumpNumbers(c: Config, s: System, step: Step)
    requires Enabled(c, s, step) && !step.BumpUpper?
    ensures Do(c, s, step).log == s.log
  {
    if step.Deliver? {
      DeliveryTouchesNoSender(c, s, step.packet);
    }
  }

  lemma {:induction false} RunLast(c: Config, s: System, steps: seq<Step>)
    requires DisconnectIsLast(s) && CanRun(c, s, steps)
    ensures DisconnectIsLast(Run(c, s, steps))
    decreases |steps|
  {
    if |steps| > 0 {
      StepLast(c, s, steps[0]);
      RunLast(c, Do(c, s, steps[0]), steps[1..]);
    }
  }

  /** Whoever still has to number a packet has not disconnected, whatever has happened to the receiver. */
  lemma NumberingIsBeforeDisconnect(c: Config, s: System)
    requires c.Valid() && Reachable(c, s) && BeforeNumbering(s.caller.stage)
    ensures !HasDisconnect(s.log) && !s.misstep && Open(s.receiver) && Safe(c, s)
  {
    var steps :| CanRun(c, Init(c), steps) && Run(c, Init(c), steps) == s;
    RunLast(c, Init(c), steps);
    OpenBeforeDisconnect(c, s);
  }
}

/** Safety of every run, and the refinement of a two-operation specification. */
module Runs {
  import opened Packets
  import opened Settings
  import opened System
  import opened ReceiverFacts
  import opened Safety
  import RM = ReceiverModel

  lemma MisstepStays(c: Config, s: System, step: Step)
    requires Enabled(c, s, step) && s.misstep
    ensures Do(c, s, step).misstep
  {}

  lemma {:induction false} RunMisstepStays(c: Config, s: System, steps: seq<Step>)
    requires CanRun(c, s, steps) && s.misstep
    ensures Run(c, s, steps).misstep
    decreases |steps|
  {
    if |steps| > 0 {
      MisstepStays(c, s, steps[0]);
      RunMisstepStays(c, Do(c, s, steps[0]), steps[1..]);
    }
  }

  lemma StepWithoutMisstep(c: Config, s: System, step: Step)
    requires Enabled(c, s, step) && !Do(c, s, step).misstep
    ensures step.Deliver? ==> !Missteps(s.receiver, step.packet)
  {}

  lemma {:induction false} RunSafe(c: Config, s: System, steps: seq<Step>)
    requires c.Valid() && Safe(c, s) && CanRun(c, s, steps) && !Run(c, s, steps).misstep
    ensures Safe(c, Run(c, s, steps))
    decreases |steps|
  {
    if |steps| > 0 {
      var next := Do(c, s, steps[0]);
      if next.misstep {
        RunMisstepStays(c, next, steps[1..]);
      } else {
        StepWithoutMisstep(c, s, steps[0]);
        StepSafe(c, s, steps[0]);
        RunSafe(c, next, steps[1..]);
      }
    }
  }

  lemma ReachableSafe(c: Config, s: System)
    requires c.Valid() && Reachable(c, s) && !s.misstep
    ensures Safe(c, s)
  {
    var steps :| CanRun(c, Init(c), steps) && Run(c, Init(c), steps) == s;
    InitSafe(c);
    RunSafe(c, Init(c), steps);
  }

  lemma {:induction false} PayloadsPrefix(log: seq<Packet>, n: nat)
    requires n <= |log|
    ensures Payloads(log[..n]) <= Payloads(log)
  {
    if n < |log| {
      PayloadsPrefix(log[..|log| - 1], n);
      assert log[..|log| - 1][..n] == log[..n];
    } else {
      assert log[..n] == log;
    }
  }

  /** Safety over whole runs: what the receiver wrote is the payloads numbered below its window, in
      order, so it is a prefix of what the sender numbered; and the two windows overlap. */
  lemma OutputInOrder(c: Config, s: System)
    requires c.Valid() && Reachable(c, s) && !s.misstep
    ensures s.receiver.first <= |s.log|
    ensures s.receiver.out == Payloads(s.log[..s.receiver.first]) <= Payloads(s.log)
  {
    ReachableSafe(c, s);
    PayloadsPrefix(s.log, s.receiver.first);
  }

  /** sender.lower <= receiver.first <= sender.upper, and acks name only what the receiver took. */
  lemma WindowsOverlap(c: Config, s: System)
    requires c.Valid() && Reachable(c, s) && !s.misstep
    ensures s.sender.lower <= s.receiver.first <= s.sender.upper
    ensures forall a :: a in s.acks ==>
      if c.selectiveRepeat then a.number < s.receiver.first || a.number in s.receiver.buffer
      else a.number <= s.receiver.first
    ensures s.listener.Acking? ==>
      var s' := Do(c, s, Ack).sender; s.sender.lower <= s'.lower <= s'.upper
  {
    ReachableSafe(c, s);
    if s.listener.Acking? {
      AckSafe(c, s);
      AcknowledgeKeepsOrder(c, s.sender, s.receiver, s.listener.ack.number);
    }
  }

  /** The receive buffer: strictly inside the window, and so smaller than it. */
  lemma BufferInsideWindow(c: Config, s: System)
    requires c.Valid() && Reachable(c, s) && !s.misstep
    ensures s.receiver.second == s.receiver.first + c.recvWindow
    ensures forall n :: n in s.receiver.buffer ==>
      s.receiver.first < n < s.receiver.second && n < |s.log| && s.receiver.buffer[n] == s.log[n]
    ensures |s.receiver.buffer| <= c.recvWindow - 1
  {
    ReachableSafe(c, s);
    SizeInRange(s.receiver.buffer.Keys, s.receiver.first + 1, s.receiver.second);
  }

  lemma {:induction false} SizeInRange(ns: set<nat>, low: nat, high: nat)
    requires low <= high && forall n :: n in ns ==> low <= n < high
    ensures |ns| <= high - low
    decreases high - low
  {
    if low < high {
      SizeInRange(ns - {low}, low + 1, high);
      assert ns <= (ns - {low}) + {low};
    } else {
      assert ns == {};
    }
  }

  /** What one datagram makes the receiver write: the longest contiguous run that begins at its window. */
  lemma ReceiveWritesLongestRun(c: Config, r: RM.Receiver, p: Packet, log: seq<Packet>)
    requires c.Valid() && LogOk(log) && ReceiverOk(c, r, log) && InLog(log, p)
    requires r.first == 0 ==> |log| <= 1
    requires !Missteps(r, p)
    ensures var r' := RM.Receive(c, r, p).receiver;
      && r'.first !in r.buffer
      && (forall n: nat :: r.first <= n < r'.first ==> n in r.buffer || n == p.number)
  {
    if !r.done && !RM.IsOld(r, p) && !RM.IsBeyond(r, p) {
      BufferMatches(c, r, p, log);
      SlideDelivers(RM.Buffer(RM.Transition(c, r, p), p), log);
    }
  }

  /** What one delivery writes: nothing, or the longest contiguous run that begins at the window. */
  lemma DeliveryWritesLongestRun(c: Config, s: System, p: Packet)
    requires c.Valid() && Reachable(c, s) && Enabled(c, s, Deliver(p)) && !Do(c, s, Deliver(p)).misstep
    ensures var r, r' := s.receiver, Do(c, s, Deliver(p)).receiver;
      && r.first <= r'.first <= |s.log|
      && r'.out == r.out + Payloads(s.log[r.first..r'.first])
      && (forall n: nat :: r.first <= n < r'.first ==> n in r.buffer || n == p.number)
      && r'.first !in r.buffer
  {
    StepWithoutMisstep(c, s, Deliver(p));
    MisstepStaysAway(c, s, p);
    ReachableSafe(c, s);
    DeliveryTouchesNoSender(c, s, p);
    ReceiveWritesLongestRun(c, s.receiver, p, s.log);
    ReceiveKeeps(c, s.receiver, p, s.log);
    SplitPayloads(s.log[..Do(c, s, Deliver(p)).receiver.first], s.receiver.first);
    WrittenRange(s.log, s.receiver.first, Do(c, s, Deliver(p)).receiver.first);
  }

  lemma MisstepStaysAway(c: Config, s: System, p: Packet)
    requires Enabled(c, s, Deliver(p)) && !Do(c, s, Deliver(p)).misstep
    ensures !s.misstep
  {}

  lemma WrittenRange(log: seq<Packet>, n: nat, m: nat)
    requires n <= m <= |log|
    ensures log[..m][..n] == log[..n] && log[..m][n..] == log[n..m]
  {}

  lemma {:induction false} SplitPayloads(log: seq<Packet>, n: nat)
    requires n <= |log|
    ensures Payloads(log) == Payloads(log[..n]) + Payloads(log[n..])
  {
    if n == |log| {
      assert log[..n] == log;
    } else {
      var init, last := log[..|log| - 1], log[|log| - 1];
      SplitPayloads(init, n);
      assert init[..n] == log[..n];
      assert log[n..] == init[n..] + [last];
      PayloadsSnoc(init[n..], last);
      JoinAssociates(Payloads(log[..n]), Payloads(init[n..]), last.payload);
    }
  }
}

/** The specification: a list of numbered payloads, of which a prefix has been delivered. */
module Specification {
  import opened Packets

  datatype Spec = Spec(numbered: seq<Bytes>, delivered: nat)

  datatype Operation = Append(payload: Bytes) | DeliverNext

  predicate Allowed(a: Spec, op: Operation) {
    op.DeliverNext? ==> a.delivered < |a.numbered|
  }

  function Apply(a: Spec, op: Operation): Spec
    requires Allowed(a, op)
  {
    match op
    case Append(payload) => a.(numbered := a.numbered + [payload])
    case DeliverNext => a.(delivered := a.delivered + 1)
  }

  predicate CanApply(a: Spec, ops: seq<Operation>)
    decreases |ops|
  {
    |ops| == 0 || (Allowed(a, ops[0]) && CanApply(Apply(a, ops[0]), ops[1..]))
  }

  function ApplyAll(a: Spec, ops: seq<Operation>): Spec
    requires CanApply(a, ops)
    decreases |ops|
  {
    if |ops| == 0 then a else ApplyAll(Apply(a, ops[0]), ops[1..])
  }

  lemma {:induction false} ApplyJoin(a: Spec, left: seq<Operation>, right: seq<Operation>)
    requires CanApply(a, left) && CanApply(ApplyAll(a, left), right)
    ensures CanApply(a, left + right) && ApplyAll(a, left + right) == ApplyAll(ApplyAll(a, left), right)
    decreases |left|
  {
    if |left| == 0 {
      assert left + right == right;
    } else {
      assert (left + right)[1..] == left[1..] + right;
      ApplyJoin(Apply(a, left[0]), left[1..], right);
    }
  }

  /** `n` deliveries in a row. */
  lemma {:induction false} DeliverMany(a: Spec, n: nat) returns (ops: seq<Operation>)
    requires a.delivered + n <= |a.numbered|
    ensures CanApply(a, ops) && ApplyAll(a, ops) == a.(delivered := a.delivered + n)
    ensures forall op :: op in ops ==> op == DeliverNext
    decreases n
  {
    if n == 0 {
      ops := [];
    } else {
      var rest := DeliverMany(Apply(a, DeliverNext), n - 1);
      ops := [DeliverNext] + rest;
      assert ops[1..] == rest;
    }
  }
}

module Refinement {
  import opened Packets
  import opened Settings
  import opened System
  import opened Safety
  import opened Runs
  import opened Stream
  import opened Specification

  function PayloadList(log: seq<Packet>): seq<Bytes> {
    seq(|log|, i requires 0 <= i < |log| => log[i].payload)
  }

  function Abstract(s: System): Spec {
    Spec(PayloadList(s.log), s.receiver.first)
  }

  /** The bytes that a state of the specification has delivered. */
  function Delivered(a: Spec): Bytes
    requires a.delivered <= |a.numbered|
  {
    Join(a.numbered[..a.delivered])
  }

  lemma {:induction false} JoinSnoc(chunks: seq<Bytes>, chunk: Bytes)
    ensures Join(chunks + [chunk]) == Join(chunks) + chunk
  {
    if |chunks| == 0 {
      assert chunks + [chunk] == [chunk] && [chunk][1..] == [];
      assert Join([chunk]) == chunk + [];
    } else {
      assert (chunks + [chunk])[1..] == chunks[1..] + [chunk];
      JoinSnoc(chunks[1..], chunk);
      JoinAssociates(chunks[0], Join(chunks[1..]), chunk);
    }
  }

  lemma {:induction false} PayloadsAreJoined(log: seq<Packet>, n: nat)
    requires n <= |log|
    ensures Join(PayloadList(log)[..n]) == Payloads(log[..n])
  {
    if n > 0 {
      PayloadsAreJoined(log, n - 1);
      assert log[..n] == log[..n - 1] + [log[n - 1]];
      PayloadsSnoc(log[..n - 1], log[n - 1]);
      assert PayloadList(log)[..n] == PayloadList(log)[..n - 1] + [log[n - 1].payload];
      JoinSnoc(PayloadList(log)[..n - 1], log[n - 1].payload);
    }
  }

  /** What the receiver has written is what the specification has delivered. */
  lemma OutputIsDelivered(c: Config, s: System)
    requires c.Valid() && Safe(c, s)
    ensures s.receiver.first <= |s.log| && s.receiver.out == Delivered(Abstract(s))
  {
    PayloadsAreJoined(s.log, s.receiver.first);
  }

  lemma StepEffect(c: Config, s: System, step: Step)
    requires c.Valid() && Safe(c, s) && Enabled(c, s, step) && !Do(c, s, step).misstep
    ensures var s' := Do(c, s, step);
      || (s'.log == s.log && s.receiver.first <= s'.receiver.first <= |s.log|)
      || (s'.receiver.first == s.receiver.first && exists p :: s'.log == s.log + [p])
    ensures step.Deliver? || Do(c, s, step).receiver == s.receiver
  {
    StepWithoutMisstep(c, s, step);
    StepSafe(c, s, step);
    if step.Deliver? {
      DeliverSafe(c, s, step.packet);
      DeliveryTouchesNoSender(c, s, step.packet);
    } else if CallerStep(step) {
      CallerStepsTouchNoNumber(c, s, step);
    } else if SenderThreadStep(step) {
      SenderThreadsTouchNoWindow(c, s, step);
    } else if ListenerStep(step) {
      ListenerStepsTouchNoWindow(c, s, step);
    }
  }

  lemma AppendRefines(s: System, t: System, p: Packet) returns (ops: seq<Operation>)
    requires t.log == s.log + [p] && t.receiver.first == s.receiver.first
    ensures CanApply(Abstract(s), ops) && ApplyAll(Abstract(s), ops) == Abstract(t) && |ops| == 1
  {
    ops := [Append(p.payload)];
    assert PayloadList(t.log) == PayloadList(s.log) + [p.payload];
    assert ops[1..] == [];
  }

  lemma DeliveryRefines(s: System, t: System) returns (ops: seq<Operation>)
    requires t.log == s.log && s.receiver.first <= t.receiver.first <= |s.log|
    ensures CanApply(Abstract(s), ops) && ApplyAll(Abstract(s), ops) == Abstract(t)
    ensures forall op :: op in ops ==> op == DeliverNext
  {
    ops := DeliverMany(Abstract(s), t.receiver.first - s.receiver.first);
  }

  /** Every step of the protocol is one Append, some DeliverNext, or nothing, of the specification. */
  lemma StepRefines(c: Config, s: System, step: Step) returns (ops: seq<Operation>)
    requires c.Valid() && Safe(c, s) && Enabled(c, s, step) && !Do(c, s, step).misstep
    ensures CanApply(Abstract(s), ops)
    ensures ApplyAll(Abstract(s), ops) == Abstract(Do(c, s, step))
    ensures |ops| > 1 ==> forall op :: op in ops ==> op == DeliverNext
  {
    var t := Do(c, s, step);
    StepEffect(c, s, step);
    if t.log == s.log {
      ops := DeliveryRefines(s, t);
    } else {
      var p :| t.log == s.log + [p];
      ops := AppendRefines(s, t, p);
    }
  }

  /** Every run of the protocol without a misstep is a run of the specification, and has written the bytes that
      it has delivered. */
  lemma {:induction false} RunRefines(c: Config, s: System, steps: seq<Step>) returns (ops: seq<Operation>)
    requires c.Valid() && Safe(c, s) && CanRun(c, s, steps) && !Run(c, s, steps).misstep
    ensures CanApply(Abstract(s), ops)
    ensures ApplyAll(Abstract(s), ops) == Abstract(Run(c, s, steps))
    ensures var t := Run(c, s, steps); t.receiver.first <= |t.log| && t.receiver.out == Delivered(Abstract(t))
    decreases |steps|
  {
    if |steps| == 0 {
      ops := [];
      OutputIsDelivered(c, s);
    } else {
      var next := Do(c, s, steps[0]);
      if next.misstep {
        RunMisstepStays(c, next, steps[1..]);
        assert false;
      }
      var first := StepRefines(c, s, steps[0]);
      StepWithoutMisstep(c, s, steps[0]);
      StepSafe(c, s, steps[0]);
      var rest := RunRefines(c, next, steps[1..]);
      ApplyJoin(Abstract(s), first, rest);
      ops := first + rest;
    }
  }
}

/** The duplicate-ack counter of Go-Back-N in closed form (compare section 3.2 of RFC 5681). */
module DuplicateAcks {
  import opened Settings
  import opened SenderModel
  import opened System
  import opened SenderFacts

  /** How many duplicates pass between two retransmissions. */
  function Period(sendWindow: nat): nat {
    if sendWindow < 3 then 3 else sendWindow
  }

  /** The counter after `n` duplicates since the last slide. */
  function CounterAfter(sendWindow: nat, n: nat): nat {
    if n == 0 then 0
    else if sendWindow == 1 then 1
    else 1 + (n - 1) % Period(sendWindow)
  }

  /** The `n`-th duplicate since the last slide is one that retransmits. */
  predicate Scheduled(sendWindow: nat, n: nat) {
    sendWindow >= 2 && n >= 3 && (n - 3) % Period(sendWindow) == 0
  }

  lemma ModStep(x: nat, p: nat)
    requires p > 1
    ensures (x + 1) % p == if x % p == p - 1 then 0 else x % p + 1
  {
    var k := (x + 1) / p - x / p;
    DistributeDifference(p, (x + 1) / p, x / p);
    assert p * k == x % p + 1 - (x + 1) % p;
    SmallMultiple(p, k);
    SmallMultiple(p, k - 1);
    assert p * (k - 1) == p * k - p;
  }

  lemma DistributeDifference(p: nat, a: int, b: int)
    ensures p * (a - b) == p * a - p * b
  {}

  lemma SmallMultiple(p: nat, k: int)
    requires p > 0
    ensures k >= 1 ==> p * k >= p
    ensures k <= -1 ==> p * k + p <= 0
    ensures k == 0 ==> p * k == 0
  {}

  /** One more duplicate moves the counter along the closed form. */
  lemma CounterStep(sendWindow: nat, n: nat)
    requires sendWindow >= 1
    ensures NextDups(sendWindow, CounterAfter(sendWindow, n)) == CounterAfter(sendWindow, n + 1)
    ensures CounterAfter(sendWindow, n) == 2 <==> Scheduled(sendWindow, n + 1)
  {
    var p := Period(sendWindow);
    if n >= 1 && sendWindow >= 2 {
      ModStep(n - 1, p);
      if n >= 2 {
        ModStep(n - 2, p);
      }
    }
  }

  /** The duplicates that a run processes: ack steps that name the lower bound. */
  ghost function Duplicates(c: Config, s: System, steps: seq<Step>): nat
    requires CanRun(c, s, steps)
    decreases |steps|
  {
    if |steps| == 0 then 0
    else
      (if steps[0].Ack? && s.listener.ack.number == s.sender.lower then 1 else 0)
      + Duplicates(c, Do(c, s, steps[0]), steps[1..])
  }

  lemma OtherStepsKeepCounter(c: Config, s: System, step: Step)
    requires Enabled(c, s, step) && !step.Ack?
    ensures Do(c, s, step).sender.dups == s.sender.dups
    ensures Do(c, s, step).sender.lower == s.sender.lower
  {
    if step.Process? {
      ProcessKeepsWindow(c, s.sender, s.held.value, step.now);
    }
  }

  lemma {:induction false} RunOnlyForward(c: Config, s: System, steps: seq<Step>)
    requires CanRun(c, s, steps)
    ensures s.sender.lower <= Run(c, s, steps).sender.lower
    decreases |steps|
  {
    if |steps| > 0 {
      if steps[0].Ack? {
        SlideOnlyForward(c, s.sender, s.listener.ack.number);
      } else {
        OtherStepsKeepCounter(c, s, steps[0]);
      }
      RunOnlyForward(c, Do(c, s, steps[0]), steps[1..]);
    }
  }

  /** However the threads interleave, the counter is the closed form of the duplicates since the slide. */
  lemma {:induction false} CounterOverRun(c: Config, s: System, steps: seq<Step>, n: nat)
    requires c.Valid() && !c.selectiveRepeat
    requires CanRun(c, s, steps) && Run(c, s, steps).sender.lower == s.sender.lower
    requires s.sender.dups == CounterAfter(c.sendWindow, n)
    ensures Run(c, s, steps).sender.dups == CounterAfter(c.sendWindow, n + Duplicates(c, s, steps))
    decreases |steps|
  {
    if |steps| > 0 {
      var next := Do(c, s, steps[0]);
      RunOnlyForward(c, next, steps[1..]);
      if steps[0].Ack? {
        CounterStep(c.sendWindow, n);
        SlideOnlyForward(c, s.sender, s.listener.ack.number);
        CounterOverRun(c, next, steps[1..], if s.listener.ack.number == s.sender.lower then n + 1 else n);
      } else {
        OtherStepsKeepCounter(c, s, steps[0]);
        CounterOverRun(c, next, steps[1..], n);
      }
    }
  }

  /** A slide starts the count again. */
  lemma SlideResetsCounter(c: Config, s: Sender, n: nat)
    requires !c.selectiveRepeat && s.lower < n
    ensures Acknowledge(c, s, n).dups == 0
  {}

  ghost predicate JustSlid(c: Config, before: System, s: System) {
    Enabled(c, before, Ack) && before.sender.lower < before.listener.ack.number && s == Do(c, before, Ack)
  }

  /** Nothing has been counted yet: the sender has just been initialised, or an ack step has just slid. */
  ghost predicate CountStarts(c: Config, s: System) {
    s == Init(c) || exists before :: JustSlid(c, before, s)
  }

  lemma CountStartsAtZero(c: Config, s: System)
    requires !c.selectiveRepeat && CountStarts(c, s)
    ensures s.sender.dups == 0
  {
    if s != Init(c) {
      var before :| JustSlid(c, before, s);
      SlideResetsCounter(c, before.sender, before.listener.ack.number);
    }
  }

  /** The schedule: since the last slide, with fast retransmit on, the ack step re-pends the whole window on
      exactly the 3rd duplicate and every max(W, 3)-th one after it, and never when W = 1. */
  lemma RetransmitSchedule(c: Config, s: System, steps: seq<Step>)
    requires c.Valid() && !c.selectiveRepeat && CountStarts(c, s)
    requires CanRun(c, s, steps) && Run(c, s, steps).sender.lower == s.sender.lower
    requires var t := Run(c, s, steps); Enabled(c, t, Ack) && t.listener.ack.number == t.sender.lower
    ensures var t, nth := Run(c, s, steps), Duplicates(c, s, steps) + 1;
      Do(c, t, Ack).sender.pending ==
        if c.fastRetransmit && c.sendWindow >= 2 && nth >= 3 && (nth - 3) % Period(c.sendWindow) == 0
        then t.sender.pending + Range(t.sender.lower, t.sender.upper)
        else t.sender.pending
  {
    CountStartsAtZero(c, s);
    CounterOverRun(c, s, steps, 0);
    RepairAtDuplicate(c, Run(c, s, steps), Duplicates(c, s, steps));
  }

  lemma RepairAtDuplicate(c: Config, t: System, n: nat)
    requires c.Valid() && !c.selectiveRepeat && Enabled(c, t, Ack) && t.listener.ack.number == t.sender.lower
    requires t.sender.dups == CounterAfter(c.sendWindow, n)
    ensures Do(c, t, Ack).sender.pending ==
      if c.fastRetransmit && Scheduled(c.sendWindow, n + 1)
      then t.sender.pending + Range(t.sender.lower, t.sender.upper)
      else t.sender.pending
  {
    CounterStep(c.sendWindow, n);
  }
}

/** What the sender's own threads keep among themselves, whatever the network and the receiver do. */
module SenderFacts {
  import opened Options
  import opened Settings
  import opened SenderModel
  import opened System

  // ---- The window ----

  /** The caller's place in send_packet agrees with the window. */
  ghost predicate WindowOk(c: Config, s: System) {
    && s.sender.upper - s.sender.lower <= c.sendWindow
    && (s.caller.stage.Available? ==> SenderModel.Available(c, s.sender))
    && (s.caller.stage.Numbered? ==> SenderModel.Available(c, s.sender) && s.caller.stage.number == s.sender.upper)
    && (s.caller.stage.Bumped? ==> s.caller.stage.number + 1 == s.sender.upper)
  }

  lemma SlideOnlyForward(c: Config, s: Sender, n: nat)
    ensures var s' := Acknowledge(c, s, n);
      && s.lower <= s'.lower && s'.upper == s.upper && s'.pool == s.pool && s'.retry == s.retry
      && s'.timer == s.timer && s'.state == s.state && s'.running == s.running
      && s.pending <= s'.pending && (c.selectiveRepeat ==> s'.pending == s.pending)
  {}

  lemma WindowStep(c: Config, s: System, step: Step)
    requires c.Valid() && WindowOk(c, s) && Enabled(c, s, step)
    ensures WindowOk(c, Do(c, s, step))
    ensures s.sender.lower <= Do(c, s, step).sender.lower
  {
    if step.Ack? {
      SlideOnlyForward(c, s.sender, s.listener.ack.number);
    } else if step.Process? {
      ProcessKeepsWindow(c, s.sender, s.held.value, step.now);
    } else {
      OtherWindowStep(c, s, step);
    }
  }

  lemma OtherWindowStep(c: Config, s: System, step: Step)
    requires c.Valid() && WindowOk(c, s) && Enabled(c, s, step) && !step.Ack? && !step.Process?
    ensures WindowOk(c, Do(c, s, step))
    ensures s.sender.lower == Do(c, s, step).sender.lower
  {
    if MovesStage(step) {
      StageWindowStep(c, s, step);
    } else {
      CallWindowStep(c, s, step);
    }
  }

  predicate MovesStage(step: Step) {
    step.SeeWindow? || step.SeeFullWindow? || step.WaitAgain? || step.ReturnUnsent? || step.ReadUpper?
    || step.BumpUpper? || step.Insert?
  }

  lemma StageWindowStep(c: Config, s: System, step: Step)
    requires c.Valid() && WindowOk(c, s) && Enabled(c, s, step) && MovesStage(step)
    ensures WindowOk(c, Do(c, s, step))
    ensures s.sender.lower == Do(c, s, step).sender.lower
  {}

  lemma CallWindowStep(c: Config, s: System, step: Step)
    requires WindowOk(c, s) && Enabled(c, s, step) && !step.Ack? && !step.Process? && !MovesStage(step)
    ensures WindowOk(c, Do(c, s, step))
    ensures s.sender.lower == Do(c, s, step).sender.lower
  {
    var t := Do(c, s, step);
    assert t.sender.lower == s.sender.lower && t.sender.upper == s.sender.upper;
    assert t.caller.stage == s.caller.stage || t.caller.stage.Waiting?;
  }

  lemma ProcessKeepsWindow(c: Config, s: Sender, n: nat, now: int)
    ensures var s' := ProcessPopped(c, s, n, now);
      s'.lower == s.lower && s'.upper == s.upper && s'.acked == s.acked && s'.pending == s.pending && s'.dups == s.dups
  {}

  // ---- Nothing is orphaned ----

  /** `n` needs no more transmissions. */
  predicate Acked(c: Config, s: Sender, n: nat) {
    n < s.lower || (c.selectiveRepeat && n in s.acked)
  }

  predicate Inserting(s: System, n: nat) {
    s.caller.stage.Bumped? && s.caller.stage.number == n
  }

  /** Somebody will look at `n` again: a queue, the timer, send_handler or the caller. */
  predicate LookedAfter(s: System, n: nat) {
    || n in s.sender.pending
    || n in s.sender.timer.deadlines
    || n in s.sender.timer.timedOut
    || s.held == Some(n)
    || Inserting(s, n)
  }

  /** No thread looks after a number that has not been given out. */
  ghost predicate NumbersKnown(s: System) {
    && (forall n :: n in s.sender.pending ==> n < s.sender.upper)
    && (forall n :: n in s.sender.timer.deadlines ==> n < s.sender.upper)
    && (forall n :: n in s.sender.timer.timedOut ==> n < s.sender.upper)
    && (forall n :: n in s.sender.retry ==> n < s.sender.upper)
    && (forall n :: n in s.abandoned ==> n < s.sender.upper)
    && (s.held.Some? ==> s.held.value < s.sender.upper)
  }

  lemma NumbersStep(c: Config, s: System, step: Step)
    requires c.Valid() && WindowOk(c, s) && NumbersKnown(s) && Enabled(c, s, step)
    ensures NumbersKnown(Do(c, s, step))
  {
    if step.Ack? {
      SlideOnlyForward(c, s.sender, s.listener.ack.number);
      AckPendsOnlyWindow(c, s.sender, s.listener.ack.number);
    } else if step.Process? {
      ProcessTimesOnlyHeld(c, s.sender, s.held.value, step.now);
    } else if step.Fire? || step.Repend? || step.Pop? || step.Insert? || step.BumpUpper? {
      QueueStepNumbers(c, s, step);
    } else {
      var t := Do(c, s, step);
      assert t.sender == s.sender.(state := t.sender.state) && t.held == s.held && t.abandoned == s.abandoned;
    }
  }

  lemma QueueStepNumbers(c: Config, s: System, step: Step)
    requires c.Valid() && WindowOk(c, s) && NumbersKnown(s) && Enabled(c, s, step)
    requires step.Fire? || step.Repend? || step.Pop? || step.Insert? || step.BumpUpper?
    ensures NumbersKnown(Do(c, s, step))
  {}

  lemma AckPendsOnlyWindow(c: Config, s: Sender, n: nat)
    ensures forall m :: m in Acknowledge(c, s, n).pending ==> m in s.pending || m < s.upper
  {}

  lemma ProcessTimesOnlyHeld(c: Config, s: Sender, n: nat, now: int)
    ensures var s' := ProcessPopped(c, s, n, now);
      && s'.pending == s.pending && s'.upper == s.upper
      && (forall m :: m in s'.timer.deadlines ==> m in s.timer.deadlines || m == n)
      && s'.timer.timedOut <= s.timer.timedOut
      && (forall m :: m in s'.retry ==> m in s.retry || m == n)
  {}

  ghost predicate PoolCovers(c: Config, s: System) {
    forall n: nat :: n < s.sender.upper ==> Acked(c, s.sender, n) || n in s.sender.pool || Inserting(s, n)
  }

  ghost predicate NoneOrphaned(c: Config, s: System) {
    forall n: nat :: n < s.sender.upper ==> Acked(c, s.sender, n) || LookedAfter(s, n) || n in s.abandoned
  }

  /** An acked number stays acked, although its entry leaves the set as the window slides. */
  lemma AckedStays(c: Config, s: Sender, m: nat, n: nat)
    requires Acked(c, s, n)
    ensures Acked(c, Acknowledge(c, s, m), n)
  {}

  lemma StepKeepsAcked(c: Config, s: System, step: Step, n: nat)
    requires Enabled(c, s, step) && Acked(c, s.sender, n)
    ensures Acked(c, Do(c, s, step).sender, n)
  {
    if step.Ack? {
      AckedStays(c, s.sender, s.listener.ack.number, n);
    } else if step.Process? {
      ProcessKeepsWindow(c, s.sender, s.held.value, step.now);
    }
  }

  lemma PoolStep(c: Config, s: System, step: Step)
    requires c.Valid() && WindowOk(c, s) && PoolCovers(c, s) && Enabled(c, s, step)
    ensures PoolCovers(c, Do(c, s, step))
  {
    var s' := Do(c, s, step);
    forall n: nat | n < s'.sender.upper
      ensures Acked(c, s'.sender, n) || n in s'.sender.pool || Inserting(s', n)
    {
      if n < s.sender.upper {
        if Acked(c, s.sender, n) {
          StepKeepsAcked(c, s, step, n);
        } else if step.Ack? {
          SlideOnlyForward(c, s.sender, s.listener.ack.number);
        } else if step.Process? {
          ProcessPool(c, s.sender, s.held.value, step.now, n);
        }
      }
    }
  }

  lemma ProcessPool(c: Config, s: Sender, m: nat, now: int, n: nat)
    requires !Acked(c, s, n)
    ensures n in s.pool ==> n in ProcessPopped(c, s, m, now).pool
  {}

  /** send_handler lets go of an unacked number only into the timer, or at its retry limit. */
  lemma ProcessLooksAfter(c: Config, s: Sender, m: nat, now: int, n: nat)
    requires !Acked(c, s, n) && n < s.upper
    ensures var s' := ProcessPopped(c, s, m, now);
      && (n != m ==>
           && (n in s'.timer.deadlines <==> n in s.timer.deadlines)
           && (n in s'.timer.timedOut <==> n in s.timer.timedOut))
      && (n == m ==> Abandons(c, s, n) || n !in s.pool || n in s'.timer.deadlines)
  {}

  lemma OrphanStep(c: Config, s: System, step: Step)
    requires c.Valid() && WindowOk(c, s) && PoolCovers(c, s) && NoneOrphaned(c, s) && Enabled(c, s, step)
    ensures NoneOrphaned(c, Do(c, s, step))
  {
    var s' := Do(c, s, step);
    forall n: nat | n < s'.sender.upper
      ensures Acked(c, s'.sender, n) || LookedAfter(s', n) || n in s'.abandoned
    {
      if n < s.sender.upper {
        if Acked(c, s.sender, n) {
          StepKeepsAcked(c, s, step, n);
        } else if step.Ack? {
          SlideOnlyForward(c, s.sender, s.listener.ack.number);
        } else if step.Process? {
          ProcessLooksAfter(c, s.sender, s.held.value, step.now, n);
          ProcessKeepsWindow(c, s.sender, s.held.value, step.now);
        } else if LookedAfter(s, n) {
          OthersLookAfter(c, s, step, n);
        }
      }
    }
  }

  /** Between the queue, the timer and send_handler's hand, a number only moves. */
  lemma OthersLookAfter(c: Config, s: System, step: Step, n: nat)
    requires Enabled(c, s, step) && !step.Ack? && !step.Process?
    requires LookedAfter(s, n)
    ensures LookedAfter(Do(c, s, step), n)
  {}

  // ---- Over whole runs ----

  ghost predicate SenderOk(c: Config, s: System) {
    WindowOk(c, s) && NumbersKnown(s) && PoolCovers(c, s) && NoneOrphaned(c, s)
  }

  lemma {:induction false} RunSenderOk(c: Config, s: System, steps: seq<Step>)
    requires c.Valid() && SenderOk(c, s) && CanRun(c, s, steps)
    ensures SenderOk(c, Run(c, s, steps))
    decreases |steps|
  {
    if |steps| > 0 {
      WindowStep(c, s, steps[0]);
      NumbersStep(c, s, steps[0]);
      PoolStep(c, s, steps[0]);
      OrphanStep(c, s, steps[0]);
      RunSenderOk(c, Do(c, s, steps[0]), steps[1..]);
    }
  }

  lemma ReachableSenderOk(c: Config, s: System)
    requires c.Valid() && Reachable(c, s)
    ensures SenderOk(c, s)
  {
    var steps :| CanRun(c, Init(c), steps) && Run(c, Init(c), steps) == s;
    RunSenderOk(c, Init(c), steps);
  }

  /** Check-then-act: the test, the read and the bump of the window are three critical sections, and
      yet the window never holds more than its maximum, and the number read is the number used. */
  lemma CheckThenActIsStable(c: Config, s: System)
    requires c.Valid() && Reachable(c, s)
    ensures s.sender.upper - s.sender.lower <= c.sendWindow
    ensures s.caller.stage.Numbered? ==> s.caller.stage.number == s.sender.upper < s.sender.lower + c.sendWindow
  {
    ReachableSenderOk(c, s);
  }

  /** Nothing is orphaned: every unacked number in the window is pending, in the timer, timed out, held
      by send_handler or still being inserted, unless its retry limit was hit. */
  lemma NothingIsOrphaned(c: Config, s: System, n: nat)
    requires c.Valid() && Reachable(c, s)
    requires s.sender.lower <= n < s.sender.upper && !(c.selectiveRepeat && n in s.sender.acked)
    ensures LookedAfter(s, n) || n in s.abandoned
    ensures n in s.sender.pool || Inserting(s, n)
  {
    ReachableSenderOk(c, s);
  }

  // ---- No resend after ack ----

  /** The numbers put on the wire by a run, in order. */
  ghost function Transmissions(c: Config, s: System, steps: seq<Step>): seq<nat>
    requires CanRun(c, s, steps)
    decreases |steps|
  {
    if |steps| == 0 then []
    else
      (if steps[0].Process? && Transmits(c, s.sender, s.held.value) then [s.held.value] else [])
      + Transmissions(c, Do(c, s, steps[0]), steps[1..])
  }

  lemma {:induction false} AckedIsNeverSent(c: Config, s: System, steps: seq<Step>, n: nat)
    requires CanRun(c, s, steps) && Acked(c, s.sender, n)
    ensures n !in Transmissions(c, s, steps)
    decreases |steps|
  {
    if |steps| > 0 {
      StepKeepsAcked(c, s, steps[0], n);
      AckedIsNeverSent(c, Do(c, s, steps[0]), steps[1..], n);
    }
  }

  /** Once the ack step for a number has run, Selective Repeat never transmits the number again, and
      Go-Back-N never transmits any number below it. */
  lemma NoResendAfterAck(c: Config, s: System, steps: seq<Step>, n: nat)
    requires Enabled(c, s, Ack) && CanRun(c, Do(c, s, Ack), steps)
    requires if c.selectiveRepeat then n == s.listener.ack.number else n < s.listener.ack.number
    ensures n !in Transmissions(c, Do(c, s, Ack), steps)
  {
    AckedIsNeverSent(c, Do(c, s, Ack), steps, n);
  }

  // ---- The retry limit ----

  /** How often send_handler has counted a try for `n`. */
  function Counted(s: Sender, n: nat): nat {
    if n in s.retry then s.retry[n] + 1 else 0
  }

  lemma ProcessCounts(c: Config, s: Sender, m: nat, now: int, n: nat)
    requires Counted(s, n) <= c.maxRetry + 1 && !Acked(c, s, n)
    ensures var s' := ProcessPopped(c, s, m, now);
      if Transmits(c, s, m) && m == n
      then Counted(s', n) == Counted(s, n) + 1 && Counted(s', n) <= c.maxRetry + 1
      else Counted(s, n) <= Counted(s', n) <= c.maxRetry + 1
  {}

  lemma OtherStepKeepsRetry(c: Config, s: System, step: Step)
    requires Enabled(c, s, step) && !step.Ack? && !step.Process?
    ensures Do(c, s, step).sender.retry == s.sender.retry
  {}

  lemma StepCounts(c: Config, s: System, step: Step, n: nat)
    requires Enabled(c, s, step) && Counted(s.sender, n) <= c.maxRetry + 1 && !Acked(c, s.sender, n)
    ensures var t := Do(c, s, step);
      if step.Process? && Transmits(c, s.sender, s.held.value) && s.held.value == n
      then Counted(t.sender, n) == Counted(s.sender, n) + 1 && Counted(t.sender, n) <= c.maxRetry + 1
      else Counted(s.sender, n) <= Counted(t.sender, n) <= c.maxRetry + 1
  {
    if step.Ack? {
      SlideOnlyForward(c, s.sender, s.listener.ack.number);
    } else if step.Process? {
      ProcessCounts(c, s.sender, s.held.value, step.now, n);
    } else {
      OtherStepKeepsRetry(c, s, step);
    }
  }

  lemma {:induction false} TriesAreBounded(c: Config, s: System, steps: seq<Step>, n: nat)
    requires CanRun(c, s, steps) && Counted(s.sender, n) <= c.maxRetry + 1
    ensures multiset(Transmissions(c, s, steps))[n] + (if Acked(c, s.sender, n) then 0 else Counted(s.sender, n))
      <= c.maxRetry + 1
    decreases |steps|
  {
    if Acked(c, s.sender, n) {
      AckedIsNeverSent(c, s, steps, n);
    } else if |steps| > 0 {
      var t := Do(c, s, steps[0]);
      StepCounts(c, s, steps[0], n);
      TriesAreBounded(c, t, steps[1..], n);
      if Acked(c, t.sender, n) {
        AckedIsNeverSent(c, t, steps[1..], n);
      }
    }
  }

  /** In any run a packet is put on the wire at most max retry count + 1 times, although its counter is
      erased when it is cleaned up. */
  lemma RetryLimitHolds(c: Config, steps: seq<Step>, n: nat)
    requires CanRun(c, Init(c), steps)
    ensures multiset(Transmissions(c, Init(c), steps))[n] <= c.maxRetry + 1
  {
    TriesAreBounded(c, Init(c), steps, n);
  }
}

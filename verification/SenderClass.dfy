/** The sender object of sender.hpp: its fields, updated in place by one critical section at a time, over
    32-bit numbers. Each method is proved to do what SenderModel says over unbounded numbers. */
module SenderClass {
  import opened Options
  import opened Packets
  import opened Settings
  import opened SequenceNumbers
  import opened SenderModel
  import opened ConcurrentQueues
  import opened ConcurrentTimers
  import opened ConcurrentWindows

  class SenderObject {
    const config: Config
    const pendingQueue: ConcurrentQueue
    const timer: ConcurrentTimer<SequenceNumber>
    const window: ConcurrentWindow
    var packetPool: map<SequenceNumber, Packet>
    var retryCount: map<SequenceNumber, nat>
    var ackedSeqSet: set<SequenceNumber>
    var ackDupTimes: nat
    var state: SenderState
    var running: bool

    ghost predicate Valid()
      reads this, timer
    {
      timer.Valid() && window.maxWindowSize == config.sendWindow
    }

    ghost function Model(): Sender
      reads this, pendingQueue, timer, window
    {
      Sender(pendingQueue.container, packetPool, retryCount, ackedSeqSet, window.first, window.second,
             ackDupTimes, state, running, timer.Model())
    }

    /** init() */
    constructor (config: Config)
      ensures Valid() && Model() == START && this.config == config
      ensures fresh(pendingQueue) && fresh(timer) && fresh(window)
    {
      this.config := config;
      pendingQueue := new ConcurrentQueue();
      timer := new ConcurrentTimer<SequenceNumber>();
      window := new ConcurrentWindow(config.sendWindow);
      packetPool, retryCount, ackedSeqSet := map[], map[], {};
      ackDupTimes := 0;
      state := Idle;
      running := true;
    }

    // ---- send_packet ----

    /** update_upper_bound, after upper_bound gave the number to use. */
    method TakeNumber() returns (n: SequenceNumber)
      requires Valid()
      modifies window
      ensures Valid() && n == old(window.second)
      ensures n + 1 < LIMIT ==> Model() == old(Model()).(upper := n + 1)
    {
      n := window.second;
      window.UpdateUpperBound();
    }

    method Insert(p: Packet)
      requires Valid() && p.number < LIMIT
      modifies this, pendingQueue
      ensures Valid()
      ensures Model() == InsertPacket(old(Model()), p)
    {
      if p.number !in packetPool {
        packetPool := packetPool[p.number := p];
      }
      pendingQueue.Push(p.number);
    }

    // ---- send_handler ----

    /** The clean-up that both tests of send_handler share. */
    method CleanUpNumber(n: SequenceNumber)
      requires Valid()
      modifies this, timer
      ensures Valid()
      ensures Model() == CleanUp(old(Model()), n)
    {
      if n in retryCount {
        retryCount := retryCount - {n};
      }
      packetPool := packetPool - {n};
      timer.RemoveEvent(n);
    }

    method ReachLimit()
      requires Valid()
      modifies this
      ensures Valid()
      ensures Model() == GiveUp(old(Model()))
    {
      if state == Stopping || state == Pushing {
        state := Connected;
      } else if state == Connecting || state == Disconnecting {
        state := Idle;
      } else {
        running := false;
      }
    }

    /** One iteration of send_handler after its pop: what goes on the wire, if anything. */
    method HandlePopped(n: SequenceNumber, clock: Clock) returns (sent: Option<Packet>)
      requires Valid()
      modifies this, timer, clock
      ensures Valid() && old(clock.now) <= clock.now
      ensures Model() == ProcessPopped(config, old(Model()), n, clock.now)
      ensures sent == if Transmits(config, old(Model()), n) then Some(old(packetPool)[n]) else None
    {
      if config.selectiveRepeat && n in ackedSeqSet {
        CleanUpNumber(n);
        return None;
      }
      if n < window.first {
        CleanUpNumber(n);
        return None;
      }
      if window.first == window.second {
        return None;
      }
      if n in retryCount {
        if retryCount[n] >= config.maxRetry {
          ReachLimit();
          return None;
        }
        retryCount := retryCount[n := retryCount[n] + 1];
      } else {
        retryCount := retryCount[n := 0];
      }
      if n in packetPool {
        timer.RegisterEvent(n, config.timeout, clock);
        return Some(packetPool[n]);
      } else {
        timer.RemoveEvent(n);
        return None;
      }
    }

    // ---- recv_handler ----

    /** The switch on the state that an ack's kind is compared with. */
    method StateForAck(kind: PacketKind) returns (target: Option<SenderState>)
      ensures target == Target(state, kind)
    {
      target := None;
      match state {
        case Connecting => if kind == ConnAck { target := Some(Connected); }
        case Pushing => if kind == DataPushAck { target := Some(Sending); }
        case Stopping => if kind == DataStopAck { target := Some(Connected); }
        case Disconnecting => if kind == DisconnAck { target := Some(Idle); }
        case _ =>
      }
    }

    /** The fast-retransmit loop. */
    method PushWindow()
      requires Valid()
      modifies pendingQueue
      ensures Valid()
      ensures pendingQueue.container == old(pendingQueue.container) + Range(window.first, window.second)
    {
      var n := window.first;
      while n < window.second
        invariant window.first <= n
        invariant n <= window.second || n == window.first
        invariant pendingQueue.container == old(pendingQueue.container) + Range(window.first, n)
        decreases window.second - n
      {
        pendingQueue.Push(n);
        n := Next(n);
      }
    }

    method CountDuplicate()
      requires Valid()
      modifies this`ackDupTimes, pendingQueue
      ensures Valid()
      ensures ackDupTimes == NextDups(config.sendWindow, old(ackDupTimes))
      ensures pendingQueue.container ==
        if old(ackDupTimes) == 2 && config.fastRetransmit
        then old(pendingQueue.container) + Range(window.first, window.second)
        else old(pendingQueue.container)
    {
      if ackDupTimes == 0 {
      } else if ackDupTimes == 2 {
        if config.fastRetransmit {
          PushWindow();
        }
      } else {
        if ackDupTimes >= window.maxWindowSize {
          ackDupTimes := 0;
        }
      }
      ackDupTimes := ackDupTimes + 1;
    }

    /** The Go-Back-N branch, with the number already in the acked set. */
    method HandleCumulativeAck(n: SequenceNumber)
      requires Valid() && n in ackedSeqSet && !config.selectiveRepeat
      modifies this, pendingQueue, window
      ensures Valid()
      ensures Model() == CumulativeAck(config, old(Model()), n)
    {
      if window.first == n {
        CountDuplicate();
      } else if window.first < n {
        ackDupTimes := 0;
        window.SetLowerBound(n);
      }
      ackedSeqSet := ackedSeqSet - {n};
    }

    /** The Selective Repeat branch: unless the window is about to wrap, the loop is SlideLower. */
    method SlideWindow()
      requires Valid()
      modifies this`ackedSeqSet, window
      ensures Valid()
      ensures (forall a :: a in old(ackedSeqSet) ==> a + 1 < LIMIT) ==> Model() == SlideLower(old(Model()))
    {
      ghost var before := Model();
      ghost var fits := forall a :: a in ackedSeqSet ==> a + 1 < LIMIT;
      while window.first in ackedSeqSet
        invariant Valid()
        invariant ackedSeqSet <= before.acked
        invariant fits ==> SlideLower(before.(acked := ackedSeqSet, lower := window.first)) == SlideLower(before)
        invariant Model() == before.(acked := ackedSeqSet, lower := window.first)
        decreases |ackedSeqSet|
      {
        ackedSeqSet := ackedSeqSet - {window.first};
        window.UpdateLowerBound();
      }
    }

    /** The ack step of recv_handler. */
    method HandleAck(n: SequenceNumber)
      requires Valid()
      modifies this, pendingQueue, window
      ensures Valid()
      ensures n + 1 < LIMIT && (forall a :: a in old(ackedSeqSet) ==> a + 1 < LIMIT) ==>
        Model() == Acknowledge(config, old(Model()), n)
    {
      ackedSeqSet := ackedSeqSet + {n};
      if !config.selectiveRepeat {
        HandleCumulativeAck(n);
      } else {
        SlideWindow();
      }
    }

    // ---- timeout_handler ----

    /** map_timed_out_events with the callback that pushes each event. */
    method RependTimedOut()
      requires Valid()
      modifies pendingQueue, timer
      ensures Valid()
      ensures Model() == Repend(old(Model()))
    {
      ghost var before := Model();
      var handed := timer.TakeTimedOut();
      var i := 0;
      while i < |handed|
        invariant 0 <= i <= |handed|
        invariant Valid() && timer.Model() == before.timer.Clear()
        invariant forall n :: n in pendingQueue.container <==> n in before.pending || n in handed[..i]
        invariant pendingQueue.container <= before.pending + before.timer.timedOut
      {
        pendingQueue.Push(handed[i]);
        i := i + 1;
      }
      assert handed[..i] == handed;
      assert pendingQueue.container == before.pending + before.timer.timedOut;
    }
  }
}

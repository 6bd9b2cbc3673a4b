/** What the receiver keeps when it is fed packets of one log. */
module ReceiverFacts {
  import opened Packets
  import opened Settings
  import opened ReceiverModel

  /** The packets that the sender has numbered, in order. */
  ghost predicate LogOk(log: seq<Packet>) {
    && (forall i :: 0 <= i < |log| ==>
      && log[i].version == VERSION && log[i].number == i && IsRequest(log[i].kind)
      && (log[i].kind != Data ==> log[i].payload == [])
      && (log[i].kind == ConnReq <==> i == 0))
    && (forall i :: 0 <= i < |log| - 1 ==> log[i].kind != DisconnReq)
  }

  ghost predicate InLog(log: seq<Packet>, p: Packet) {
    p.number < |log| && log[p.number] == p
  }

  /** The buffer and the output agree with the log; holds before and after the window slides. */
  ghost predicate Matches(r: Receiver, log: seq<Packet>) {
    && r.first <= |log|
    && (forall n :: n in r.buffer ==> r.first <= n < |log| && r.buffer[n] == log[n])
    && r.out == Payloads(log[..r.first])
  }

  ghost predicate ReceiverOk(c: Config, r: Receiver, log: seq<Packet>) {
    && Matches(r, log)
    && r.second == r.first + c.recvWindow
    && (forall n :: n in r.buffer ==> r.first < n < r.second)
    && (r.first == 0 ==> r.state == Idle && !r.done && r.buffer == map[])
    && (r.peerKnown <==> r.first > 0)
    && (r.state == Idle && !r.done && r.first > 0 ==> EarlyIdle(c, r, log))
  }

  /** The receiver was told to disconnect at number 2 while it still expects number 1. */
  ghost predicate EarlyIdle(c: Config, r: Receiver, log: seq<Packet>) {
    r.first == 1 && |log| == 3 && log[2].kind == DisconnReq && c.recvWindow >= 2
  }

  /** The receiver has not ended its session, and waits for no second ConnReq. */
  predicate Open(r: Receiver) {
    !r.done && (r.state == Idle ==> r.first == 0)
  }

  /** The receiver has written this packet or holds it. */
  predicate Holds(r: Receiver, n: nat) {
    n < r.first || n in r.buffer
  }

  /** The number that an ack may carry: what the receiver really took, or what it expects. */
  predicate Acknowledges(c: Config, r: Receiver, n: nat) {
    if c.selectiveRepeat then Holds(r, n) else 0 < n <= r.first
  }

  // ---- The slide loop ----

  /** From `r` to `r'` exactly the longest contiguous run that starts at the window was written. */
  ghost predicate WroteRun(r: Receiver, r': Receiver) {
    && r.first <= r'.first && r'.second - r'.first == r.second - r.first
    && r'.first !in r.buffer
    && (forall n: nat :: r.first <= n < r'.first ==> n in r.buffer)
    && (forall n :: n in r'.buffer <==> n in r.buffer && n >= r'.first)
    && r' == r.(first := r'.first, second := r'.second, out := r'.out, buffer := r'.buffer)
  }

  /** The slide loop writes the longest contiguous run that starts at the window, once, and nothing else. */
  lemma {:induction false} SlideDelivers(r: Receiver, log: seq<Packet>)
    requires Matches(r, log)
    ensures Matches(Slide(r), log)
    ensures WroteRun(r, Slide(r))
    decreases |r.buffer|
  {
    if r.first in r.buffer {
      WriteMatches(r, log);
      SlideDelivers(WriteFront(r), log);
      WroteOneMore(r, Slide(WriteFront(r)));
    }
  }

  lemma WroteOneMore(r: Receiver, r': Receiver)
    requires r.first in r.buffer && (forall n :: n in r.buffer ==> r.first <= n)
    requires WroteRun(WriteFront(r), r')
    ensures WroteRun(r, r')
  {
    forall n: nat | r.first <= n < r'.first
      ensures n in r.buffer
    {
      assert n != r.first ==> n in WriteFront(r).buffer;
    }
  }

  lemma WriteMatches(r: Receiver, log: seq<Packet>)
    requires Matches(r, log) && r.first in r.buffer
    ensures Matches(WriteFront(r), log)
    ensures |WriteFront(r).buffer| < |r.buffer|
  {
    assert log[..r.first + 1] == log[..r.first] + [log[r.first]];
    PayloadsSnoc(log[..r.first], log[r.first]);
    assert r.buffer.Keys == WriteFront(r).buffer.Keys + {r.first};
  }

  // ---- One datagram ----

  /** The state switch and the insertion keep the buffer in step with the log. */
  lemma BufferMatches(c: Config, r: Receiver, p: Packet, log: seq<Packet>)
    requires c.Valid() && LogOk(log) && ReceiverOk(c, r, log) && InLog(log, p)
    requires !IsOld(r, p) && !IsBeyond(r, p) && !r.done
    requires r.first == 0 ==> p.kind == ConnReq
    ensures var r2 := Buffer(Transition(c, r, p), p);
      && Matches(r2, log) && r2.second == r2.first + c.recvWindow
      && (forall n :: n in r2.buffer ==> n < r.second)
      && r2.peerKnown && p.number in r2.buffer
      && r2.buffer.Keys == r.buffer.Keys + {p.number}
      && r2.first <= r.first
      && (r2.first < r.first ==> p.number == 0 && r2.first == 0 && r.first == 1)
  {
    if r.state == Idle && r.first > 0 && p.kind == ConnReq {
      assert EarlyIdle(c, r, log);
      PayloadsSnoc(log[..0], log[0]);
      assert log[..1] == log[..0] + [log[0]];
    }
  }

  /** The receiver after the slide loop, before the loop of recv decides to stop. */
  function Slid(c: Config, r: Receiver, p: Packet): Receiver {
    Slide(Buffer(Transition(c, r, p), p))
  }

  /** The window moves only forward, and nothing taken is forgotten. */
  lemma SlidKeeps(c: Config, r: Receiver, p: Packet, log: seq<Packet>)
    requires c.Valid() && LogOk(log) && ReceiverOk(c, r, log) && InLog(log, p)
    requires !IsOld(r, p) && !IsBeyond(r, p) && !r.done
    requires r.first == 0 ==> p.kind == ConnReq
    ensures var r' := Slid(c, r, p);
      && Matches(r', log) && r'.second == r'.first + c.recvWindow
      && (forall n :: n in r'.buffer ==> r'.first < n < r'.second)
      && r.first <= r'.first && r'.first > 0 && r'.peerKnown && !r'.done
      && (forall n: nat :: Holds(r, n) ==> Holds(r', n))
      && Holds(r', p.number)
      && r'.state == Transition(c, r, p).state
  {
    var r2 := Buffer(Transition(c, r, p), p);
    BufferMatches(c, r, p, log);
    SlideDelivers(r2, log);
    RunKeeps(r2, Slide(r2));
    if r2.first < r.first {
      assert 0 in r2.buffer;
    }
    assert forall n: nat :: Holds(r, n) ==> Holds(r2, n) || n == 0;
  }

  lemma RunKeeps(r: Receiver, r': Receiver)
    requires WroteRun(r, r') && forall n :: n in r.buffer ==> r.first <= n
    ensures forall n: nat :: Holds(r, n) ==> Holds(r', n)
    ensures forall n :: n in r'.buffer ==> r'.first < n && n in r.buffer
    ensures r.first in r.buffer ==> r'.first > r.first
  {}

  lemma AcceptKeeps(c: Config, r: Receiver, p: Packet, log: seq<Packet>)
    requires c.Valid() && LogOk(log) && ReceiverOk(c, r, log) && InLog(log, p)
    requires !IsOld(r, p) && !IsBeyond(r, p) && !r.done
    requires r.first == 0 ==> p.kind == ConnReq
    requires !(r.state == Connected && p.kind == DisconnReq && p.number > r.first && p.number > 2)
    ensures var r' := Accept(c, r, p).receiver;
      && ReceiverOk(c, r', log) && r.first <= r'.first && r'.first > 0
      && (forall n: nat :: Holds(r, n) ==> Holds(r', n))
      && Holds(r', p.number)
  {
    var s := Slid(c, r, p);
    SlidKeeps(c, r, p, log);
    if s.state == Idle && s.first <= p.number {
      IdleIsEarly(c, r, p, log);
    }
  }

  /** A receiver that idles without having written the packet is the early one. */
  lemma IdleIsEarly(c: Config, r: Receiver, p: Packet, log: seq<Packet>)
    requires c.Valid() && LogOk(log) && ReceiverOk(c, r, log) && InLog(log, p)
    requires !IsOld(r, p) && !IsBeyond(r, p) && !r.done
    requires r.first == 0 ==> p.kind == ConnReq
    requires !(r.state == Connected && p.kind == DisconnReq && p.number > r.first && p.number > 2)
    requires Slid(c, r, p).state == Idle && Slid(c, r, p).first <= p.number
    ensures EarlyIdle(c, Slid(c, r, p), log)
  {
    var s := Slid(c, r, p);
    SlidKeeps(c, r, p, log);
    if r.state == Idle {
      assert EarlyIdle(c, r, log);
    } else {
      assert p.kind == DisconnReq && p.number == 2;
    }
  }
}

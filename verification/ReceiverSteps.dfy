/** What one datagram makes the receiver answer, become and tell its client, for every datagram and state. */
module ReceiverSteps {
  import opened Options
  import opened Packets
  import opened Settings
  import opened ReceiverModel
  import opened Codec

  // ---- The answer ----

  /** The ack kind of each request, by name. */
  predicate AckOf(request: PacketKind, ack: PacketKind) {
    || (request == Data && ack == DataAck)
    || (request == DataPush && ack == DataPushAck)
    || (request == DataStop && ack == DataStopAck)
    || (request == ConnReq && ack == ConnAck)
    || (request == DisconnReq && ack == DisconnAck)
  }

  /** The datagram is beyond the window, and the receiver heeds its window. */
  predicate Beyond(r: Receiver, p: Packet) {
    r.state != Idle && r.second <= p.number && r.first <= p.number
  }

  /** Go-Back-N answers every request, with the window's lower end after it. Selective Repeat answers exactly
      what is not beyond the window, with the request's own number. Nobody answers before it knows its peer. */
  lemma AnswersExactly(c: Config, r: Receiver, p: Packet)
    requires IsRequest(p.kind) && !r.done
    ensures var reply := Receive(c, r, p);
      && (reply.ack.Some? <==> reply.receiver.peerKnown && !(c.selectiveRepeat && Beyond(r, p)))
      && (reply.ack.Some? ==>
           && AckOf(p.kind, reply.ack.value.kind)
           && reply.ack.value.number == (if c.selectiveRepeat then p.number else reply.receiver.first)
           && reply.ack.value.version == 1 && reply.ack.value.payload == [])
  {}

  /** The peer is known from the first ConnReq on. */
  lemma PeerKnownByConnReq(c: Config, r: Receiver, p: Packet)
    requires IsRequest(p.kind)
    ensures Receive(c, r, p).receiver.peerKnown <==> r.peerKnown || (!r.done && r.state == Idle && p.kind == ConnReq)
  {
    SlideMovesOnly(Buffer(Transition(c, r, p), p));
  }

  // ---- What is ignored ----

  /** A request that is old or beyond the window, or comes after the end, changes nothing and yields nothing. */
  lemma OutsideWindowChangesNothing(c: Config, r: Receiver, p: Packet)
    requires IsRequest(p.kind)
    requires r.done || (r.state != Idle && (p.number < r.first || r.second <= p.number))
    ensures Receive(c, r, p).receiver == r && Receive(c, r, p).event == None
    ensures r.done ==> Receive(c, r, p).ack == None
  {}

  // ---- What is taken ----

  /** The slide loop touches the window, the output and the buffer, and moves both bounds alike. */
  lemma {:induction false} SlideMovesOnly(r: Receiver)
    ensures var r' := Slide(r);
      && r'.state == r.state && r'.peerKnown == r.peerKnown && r'.done == r.done
      && r.first <= r'.first && r'.second - r'.first == r.second - r.first
      && !FrontIsNext(r')
      && (forall n :: n in r'.buffer <==> n in r.buffer && !(r.first <= n < r'.first))
      && (forall n :: n in r'.buffer ==> r'.buffer[n] == r.buffer[n])
      && (forall n: nat :: r.first <= n < r'.first ==> n in r.buffer)
    decreases |r.buffer|
  {
    if FrontIsNext(r) {
      assert r.buffer.Keys == WriteFront(r).buffer.Keys + {r.first};
      SlideMovesOnly(WriteFront(r));
      forall n: nat | r.first <= n < Slide(r).first
        ensures n in r.buffer
      {
        assert n != r.first ==> n in WriteFront(r).buffer;
      }
    }
  }

  predicate Takes(r: Receiver, p: Packet) {
    !r.done && (r.state == Idle || r.first <= p.number < r.second)
  }

  /** The state after a packet that is taken, by name. */
  predicate NextState(state: ReceiverState, kind: PacketKind, next: ReceiverState) {
    if state == Idle && kind == ConnReq then next == Connected
    else if state == Connected && kind == DataPush then next == Receiving
    else if state == Receiving && kind == DataStop then next == Connected
    else if state == Connected && kind == DisconnReq then next == Idle
    else next == state
  }

  /** The state switch, by name; only a ConnReq at an idle receiver moves the window, to its own number. */
  lemma SwitchByName(c: Config, r: Receiver, p: Packet)
    ensures var r1 := Transition(c, r, p);
      && NextState(r.state, p.kind, r1.state)
      && (r.state == Idle && p.kind == ConnReq ==>
           r1.first == p.number && r1.second == p.number + c.recvWindow && r1.peerKnown)
      && (!(r.state == Idle && p.kind == ConnReq) ==> r1 == r.(state := r1.state))
      && r1.out == r.out && r1.buffer == r.buffer && r1.done == r.done
  {}

  /** A packet that is taken passes the state switch, enters the buffer, where an earlier one of its number
      stays, and sets off the slide loop. */
  lemma TakenIsBuffered(c: Config, r: Receiver, p: Packet)
    requires IsRequest(p.kind) && Takes(r, p)
    ensures var r1, reply := Transition(c, r, p), Receive(c, r, p);
      reply.receiver ==
        Slide(r1.(buffer := if p.number in r.buffer then r.buffer else r.buffer[p.number := p]))
        .(done := reply.receiver.done)
  {
    SwitchByName(c, r, p);
    SlideMovesOnly(Buffer(Transition(c, r, p), p));
  }

  /** The receiver yields true exactly at a DataStop that ends a transfer and has been written, and yields
      false and ends exactly when it is idle and has written the packet. */
  lemma EventsExactly(c: Config, r: Receiver, p: Packet)
    requires IsRequest(p.kind) && Takes(r, p)
    ensures var reply := Receive(c, r, p);
      && NextState(r.state, p.kind, reply.receiver.state)
      && (reply.event == Some(true) <==>
           r.state == Receiving && p.kind == DataStop && p.number < reply.receiver.first)
      && (reply.event == Some(false) <==> reply.receiver.state == Idle && p.number < reply.receiver.first)
      && (reply.receiver.done <==> reply.event == Some(false))
  {
    SwitchByName(c, r, p);
    SlideMovesOnly(Buffer(Transition(c, r, p), p));
    AcceptEvents(c, r, p);
  }

  lemma AcceptEvents(c: Config, r: Receiver, p: Packet)
    requires IsRequest(p.kind)
    requires NextState(r.state, p.kind, Transition(c, r, p).state)
    requires Slide(Buffer(Transition(c, r, p), p)).state == Transition(c, r, p).state
    requires Slide(Buffer(Transition(c, r, p), p)).done == r.done == false
    ensures var reply := Accept(c, r, p);
      && reply.receiver.state == Transition(c, r, p).state
      && (reply.event == Some(true) <==>
           r.state == Receiving && p.kind == DataStop && p.number < reply.receiver.first)
      && (reply.event == Some(false) <==> reply.receiver.state == Idle && p.number < reply.receiver.first)
      && (reply.receiver.done <==> reply.event == Some(false))
  {}

  // ---- From bytes ----

  /** What the loop of recv makes of a datagram: it drops what it cannot decode and acks that go astray, and it
      does not survive a kind that has no ack kind. */
  datatype Outcome = Ignored | Handled(reply: Reply) | Thrown

  function Hears(c: Config, r: Receiver, bytes: Bytes): Outcome
    requires |bytes| != 0 && |bytes| != 13
  {
    match Decode(bytes)
    case None => Ignored
    case Some(p) =>
      if IsAckKind(p.kind) then Ignored
      else if IsRequest(p.kind) then Handled(Receive(c, r, p))
      else Thrown
  }

  /** An encoded request is handled as the packet itself; an ack is dropped. */
  lemma EncodedIsHeard(c: Config, r: Receiver, p: Packet)
    requires Representable(p) && |p.payload| <= 65535
    ensures |Encode(p)| != 0 && |Encode(p)| != 13
    ensures p.kind in {Data, DataPush, DataStop, ConnReq, DisconnReq} ==>
      Hears(c, r, Encode(p)) == Handled(Receive(c, r, p))
    ensures p.kind in {DataAck, DataPushAck, DataStopAck, ConnAck, DisconnAck} ==> Hears(c, r, Encode(p)) == Ignored
    ensures p.kind == NoKind || p.kind.Unknown? ==> Hears(c, r, Encode(p)) == Thrown
  {
    RoundTrip(p);
  }

  /** A packet with any one byte changed on its way is as good as lost. */
  lemma CorruptedIsIgnored(c: Config, r: Receiver, p: Packet, k: nat, b: byte)
    requires k < |Encode(p)| && b != Encode(p)[k]
    ensures |Encode(p)| != 0 && |Encode(p)| != 13
    ensures Hears(c, r, Encode(p)[k := b]) == Ignored
  {
    OneByteDetected(p, k, b);
  }
}

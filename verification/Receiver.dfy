/** What Receiver::recv does with one datagram, over unbounded numbers (receiver.cpp). */
module ReceiverModel {
  import opened Options
  import opened Packets
  import opened Settings

  datatype ReceiverState = Idle | Connected | Receiving

  /** `done` is set when the coroutine has left its loop. */
  datatype Receiver = Receiver(
    state: ReceiverState,
    first: nat,
    second: nat,
    buffer: map<nat, Packet>,
    out: Bytes,
    peerKnown: bool,
    done: bool)

  function Start(c: Config): Receiver {
    Receiver(Idle, 0, c.recvWindow, map[], [], false, false)
  }

  /** What a datagram makes the receiver do: send an ack, and yield to its client. */
  datatype Reply = Reply(receiver: Receiver, ack: Option<Packet>, event: Option<bool>)

  predicate IsOld(r: Receiver, p: Packet) {
    p.number < r.first && r.state != Idle
  }

  predicate IsBeyond(r: Receiver, p: Packet) {
    p.number >= r.second && r.state != Idle
  }

  /** The ack datagram, if the peer's address is known. */
  function AckFor(r: Receiver, p: Packet, n: nat): Option<Packet>
    requires IsRequest(p.kind)
  {
    if r.peerKnown then Some(Packet(VERSION, GetAckKind(p.kind).value, n, [])) else None
  }

  /** The state switch. It runs before the window slides, whatever the packet's number. */
  function Transition(c: Config, r: Receiver, p: Packet): Receiver {
    match (r.state, p.kind)
    case (Idle, ConnReq) =>
      r.(state := Connected, peerKnown := true, first := p.number, second := p.number + c.recvWindow)
    case (Receiving, DataStop) => r.(state := Connected)
    case (Connected, DataPush) => r.(state := Receiving)
    case (Connected, DisconnReq) => r.(state := Idle)
    case _ => r
  }

  /** The set keeps the packet it already holds under a number. */
  function Buffer(r: Receiver, p: Packet): Receiver {
    if p.number in r.buffer then r else r.(buffer := r.buffer[p.number := p])
  }

  /** The front of the ordered buffer is the next expected packet. */
  predicate FrontIsNext(r: Receiver) {
    r.first in r.buffer && forall n :: n in r.buffer ==> r.first <= n
  }

  function WriteFront(r: Receiver): Receiver
    requires r.first in r.buffer
  {
    r.(first := r.first + 1,
       second := r.second + 1,
       out := r.out + r.buffer[r.first].payload,
       buffer := r.buffer - {r.first})
  }

  /** The slide-and-write loop. */
  function Slide(r: Receiver): Receiver
    decreases |r.buffer|
  {
    if FrontIsNext(r) then Slide(WriteFront(r)) else r
  }

  /** A packet that is neither old nor beyond the window. */
  function Accept(c: Config, r: Receiver, p: Packet): Reply
    requires IsRequest(p.kind)
  {
    var r' := Slide(Buffer(Transition(c, r, p), p));
    var ack := AckFor(r', p, if c.selectiveRepeat then p.number else r'.first);
    if r'.state == Idle && p.number < r'.first then
      Reply(r'.(done := true), ack, Some(false))
    else if r.state == Receiving && p.kind == DataStop && p.number < r'.first then
      Reply(r', ack, Some(true))
    else
      Reply(r', ack, None)
  }

  /** One turn of the loop of recv. */
  function Receive(c: Config, r: Receiver, p: Packet): Reply
    requires IsRequest(p.kind)
  {
    if r.done then
      Reply(r, None, None)
    else if IsOld(r, p) then
      Reply(r, AckFor(r, p, if c.selectiveRepeat then p.number else r.first), None)
    else if IsBeyond(r, p) then
      Reply(r, if c.selectiveRepeat then None else AckFor(r, p, r.first), None)
    else
      Accept(c, r, p)
  }
}

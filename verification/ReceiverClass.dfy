/** The receiver object of receiver.hpp: one loop over datagrams that mutates the window, the buffer, the
    state and the output, over 32-bit numbers. */
module ReceiverClass {
  import opened Options
  import opened Packets
  import opened Settings
  import opened SequenceNumbers
  import opened ReceiverModel
  import opened Codec
  import opened ReceiverSteps

  /** No number that taking `p` touches reaches 2^32. */
  ghost predicate Fits(c: Config, r: Receiver, p: Packet) {
    var r' := Buffer(Transition(c, r, p), p);
    c.recvWindow + p.number < LIMIT && r'.first + |r'.buffer| < LIMIT && r'.second + |r'.buffer| < LIMIT
  }

  class ReceiverObject {
    const config: Config
    var state: ReceiverState
    var first: SequenceNumber
    var second: SequenceNumber
    var recvBuffer: map<SequenceNumber, Packet>
    var os: Bytes
    var peerKnown: bool
    var done: bool

    ghost function Model(): Receiver
      reads this
    {
      Receiver(state, first, second, recvBuffer, os, peerKnown, done)
    }

    /** The beginning of recv. */
    constructor (config: Config)
      ensures this.config == config
      ensures config.recvWindow < LIMIT ==> Model() == Start(config)
    {
      this.config := config;
      state := Idle;
      first, second := 0, Truncate(config.recvWindow);
      recvBuffer := map[];
      os := [];
      peerKnown, done := false, false;
    }

    /** The state switch; tells whether the packet is a DataStop that ends a transfer. */
    method SwitchState(p: Packet) returns (isDataStop: bool)
      requires p.number < LIMIT
      modifies this`state, this`peerKnown, this`first, this`second
      ensures isDataStop <==> old(state) == Receiving && p.kind == DataStop
      ensures config.recvWindow + p.number < LIMIT ==> Model() == Transition(config, old(Model()), p)
    {
      isDataStop := false;
      match state {
        case Idle =>
          if p.kind == ConnReq {
            peerKnown := true;
            state := Connected;
            first := p.number;
            second := Plus(p.number, Truncate(config.recvWindow));
          }
        case Receiving =>
          if p.kind == DataStop {
            isDataStop := true;
            state := Connected;
          }
        case Connected =>
          if p.kind == DataPush {
            state := Receiving;
          } else if p.kind == DisconnReq {
            state := Idle;
          }
      }
    }

    /** The front of the ordered set. */
    method Front() returns (n: SequenceNumber)
      requires recvBuffer != map[]
      ensures n in recvBuffer && forall m :: m in recvBuffer ==> n <= m
    {
      n :| n in recvBuffer;
      var rest := recvBuffer.Keys - {n};
      while rest != {}
        invariant n in recvBuffer && rest <= recvBuffer.Keys
        invariant forall m :: m in recvBuffer && m !in rest ==> n <= m
        decreases rest
      {
        var m :| m in rest;
        if m < n {
          n := m;
        }
        rest := rest - {m};
      }
    }

    /** One turn of the slide-and-write loop that finds the next packet in front. */
    method WriteOne()
      requires first in recvBuffer
      modifies this`first, this`second, this`os, this`recvBuffer
      ensures |recvBuffer| == |old(recvBuffer)| - 1
      ensures old(first) + 1 < LIMIT && old(second) + 1 < LIMIT ==> Model() == WriteFront(old(Model()))
    {
      Shrinks(recvBuffer, first);
      var front := first;
      first := Next(first);
      second := Next(second);
      os := os + recvBuffer[front].payload;
      recvBuffer := recvBuffer - {front};
    }

    /** The loop has room below 2^32 for every packet that the buffer holds. */
    ghost predicate Room()
      reads this
    {
      first as nat + |recvBuffer| < LIMIT && second as nat + |recvBuffer| < LIMIT
    }

    /** The slide-and-write loop. */
    method SlideAndWrite()
      modifies this`first, this`second, this`os, this`recvBuffer
      ensures old(Room()) ==> Model() == Slide(old(Model()))
    {
      ghost var before := Model();
      while recvBuffer != map[]
        invariant old(Room()) ==> Room() && Slide(Model()) == Slide(before)
        decreases |recvBuffer|
      {
        var front := Front();
        if front != first {
          break;
        }
        assert FrontIsNext(Model());
        WriteOne();
      }
    }

    lemma Shrinks(buffer: map<SequenceNumber, Packet>, n: SequenceNumber)
      requires n in buffer
      ensures |buffer - {n}| == |buffer| - 1
    {
      assert buffer.Keys == (buffer - {n}).Keys + {n};
    }

    method MakeAck(p: Packet, n: SequenceNumber) returns (ack: Option<Packet>)
      requires IsRequest(p.kind)
      ensures ack == AckFor(Model(), p, n)
    {
      if peerKnown {
        ack := Some(Packet(VERSION, GetAckKind(p.kind).value, n, []));
      } else {
        ack := None;
      }
    }

    /** One turn of the loop of recv, from a decoded request to the acks sent and the values yielded. */
    method OnPacket(p: Packet) returns (ack: Option<Packet>, event: Option<bool>)
      requires IsRequest(p.kind) && p.number < LIMIT && !done
      modifies this
      ensures Fits(config, old(Model()), p) ==> Reply(Model(), ack, event) == Receive(config, old(Model()), p)
    {
      ack, event := None, None;
      if p.number < first && state != Idle {
        ack := MakeAck(p, if config.selectiveRepeat then p.number else first);
        return;
      }
      if p.number >= second && state != Idle {
        if !config.selectiveRepeat {
          ack := MakeAck(p, first);
        }
        return;
      }
      var isDataStop := SwitchState(p);
      if p.number !in recvBuffer {
        recvBuffer := recvBuffer[p.number := p];
      }
      SlideAndWrite();
      ack := MakeAck(p, if config.selectiveRepeat then p.number else first);
      if isDataStop && p.number < first {
        event := Some(true);
      }
      if state == Idle && p.number < first {
        done := true;
        event := Some(false);
      }
    }

    /** The loop of recv from the bytes of a datagram. An undecodable datagram and a stray ack are dropped; a kind
        without an ack kind throws. */
    method OnDatagram(bytes: Bytes) returns (ack: Option<Packet>, event: Option<bool>, thrown: bool)
      requires |bytes| != 0 && |bytes| != 13 && !done
      modifies this
      ensures var heard := Hears(config, old(Model()), bytes);
        && (thrown <==> heard == Thrown)
        && (heard == Ignored || thrown ==> Model() == old(Model()) && ack == None && event == None)
        && (heard.Handled? && Fits(config, old(Model()), Decode(bytes).value) ==>
             Reply(Model(), ack, event) == heard.reply)
    {
      ack, event, thrown := None, None, false;
      var packet := FromBytes(bytes);
      if packet == None || IsAckKind(packet.value.kind) {
        return;
      }
      if GetAckKind(packet.value.kind) == None {
        thrown := true;
        return;
      }
      DecodedFits(bytes);
      ack, event := OnPacket(packet.value);
    }
  }
}

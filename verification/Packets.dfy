/** Packets, packet kinds and their acknowledgements (packet.hpp). */
module Packets {
  import opened Options

  type byte = n: nat | n < 256
  type Bytes = seq<byte>

  const VERSION: nat := 1
  const MAX_PACKET_SIZE: nat := 8192
  const MAX_PAYLOAD_SIZE: nat := MAX_PACKET_SIZE - 14

  /** `Unknown` stands for a kind byte above 10: the decoder casts any byte to a kind. */
  datatype PacketKind =
    | NoKind | Data | DataAck | DataPush | DataPushAck | DataStop | DataStopAck
    | ConnReq | ConnAck | DisconnReq | DisconnAck | Unknown(code: byte)

  function GetAckKind(kind: PacketKind): (r: Option<PacketKind>)
    ensures r.Some? ==> IsAckKind(r.value) && !IsAckKind(kind)
  {
    match kind
    case Data => Some(DataAck)
    case DataPush => Some(DataPushAck)
    case DataStop => Some(DataStopAck)
    case ConnReq => Some(ConnAck)
    case DisconnReq => Some(DisconnAck)
    case _ => None
  }

  predicate IsAckKind(kind: PacketKind) {
    kind in {DataAck, DataPushAck, DataStopAck, ConnAck, DisconnAck}
  }

  /** A request is a kind the receiver can answer. */
  predicate IsRequest(kind: PacketKind) {
    GetAckKind(kind).Some?
  }

  datatype Packet = Packet(version: nat, kind: PacketKind, number: nat, payload: Bytes)

  function KindCode(kind: PacketKind): byte {
    match kind
    case NoKind => 0
    case Data => 1
    case DataAck => 2
    case DataPush => 3
    case DataPushAck => 4
    case DataStop => 5
    case DataStopAck => 6
    case ConnReq => 7
    case ConnAck => 8
    case DisconnReq => 9
    case DisconnAck => 10
    case Unknown(code) => code
  }

  function KindOf(code: byte): PacketKind {
    match code
    case 0 => NoKind
    case 1 => Data
    case 2 => DataAck
    case 3 => DataPush
    case 4 => DataPushAck
    case 5 => DataStop
    case 6 => DataStopAck
    case 7 => ConnReq
    case 8 => ConnAck
    case 9 => DisconnReq
    case 10 => DisconnAck
    case _ => Unknown(code)
  }

  /** The field widths of the C++ class: 16-bit version, 32-bit number, and a kind that is one byte; every
      packet with one of the eleven named kinds has them. */
  predicate Representable(p: Packet) {
    && p.version < 0x1_0000
    && p.number < 0x1_0000_0000
    && (p.kind.Unknown? ==> p.kind.code > 10)
  }

  /** The bytes that a list of packets carries, in order. */
  function Payloads(ps: seq<Packet>): Bytes {
    if |ps| == 0 then [] else Payloads(ps[..|ps| - 1]) + ps[|ps| - 1].payload
  }

  lemma PayloadsSnoc(ps: seq<Packet>, p: Packet)
    ensures Payloads(ps + [p]) == Payloads(ps) + p.payload
  {
    assert (ps + [p])[..|ps|] == ps;
  }

  lemma JoinAssociates(a: Bytes, b: Bytes, c: Bytes)
    ensures a + (b + c) == (a + b) + c
  {}
}

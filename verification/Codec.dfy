/** The byte layout of a packet: Packet::to_bytes and Packet::from_bytes. */
module Codec {
  import opened Options
  import opened Packets
  import opened Checksum

  const HEADER: nat := 12
  const MAX_LENGTH_FIELD: nat := 0xFFFF

  /** The low byte of `value >> shift`, for `scale == 1 << shift`. */
  function ByteAt(value: nat, scale: nat): byte
    requires scale > 0
  {
    value / scale % 256
  }

  function Read16(low: nat, high: nat): nat {
    low + 0x100 * high
  }

  function Read32(b0: nat, b1: nat, b2: nat, b3: nat): nat {
    b0 + 0x100 * b1 + 0x1_0000 * b2 + 0x100_0000 * b3
  }

  /** to_bytes sends a payload only if its length fits the 16-bit field; it drops it otherwise. */
  function Body(payload: Bytes): Bytes {
    if 0 < |payload| <= MAX_LENGTH_FIELD then
      [ByteAt(|payload|, 1), ByteAt(|payload|, 256)] + payload
    else
      []
  }

  /** The packet with the given two bytes in its checksum field. */
  function Layout(p: Packet, low: byte, high: byte): Bytes {
    [78, 75,
     ByteAt(p.version, 1), ByteAt(p.version, 256),
     low, high,
     KindCode(p.kind), 0,
     ByteAt(p.number, 1), ByteAt(p.number, 0x100), ByteAt(p.number, 0x1_0000), ByteAt(p.number, 0x100_0000)]
    + Body(p.payload)
  }

  function Encode(p: Packet): Bytes {
    var checksum := ChecksumOf(Layout(p, 0, 0));
    Layout(p, ByteAt(checksum, 1), ByteAt(checksum, 256))
  }

  /** from_bytes. It reads past the end of inputs of length 0 and 13, which no packet has. */
  function Decode(bytes: Bytes): Option<Packet>
    requires |bytes| != 0 && |bytes| != 13
  {
    if WrappedChecksum(bytes) != 0 then None
    else if |bytes| < HEADER then None
    else if bytes[0] != 78 || bytes[1] != 75 then None
    else if bytes[7] != 0 then None
    else
      var version := Read16(bytes[2], bytes[3]);
      var kind := KindOf(bytes[6]);
      var number := Read32(bytes[8], bytes[9], bytes[10], bytes[11]);
      if |bytes| == HEADER then
        Some(Packet(version, kind, number, []))
      else
        var size := Read16(bytes[12], bytes[13]);
        if |bytes| < 14 + size then None
        else Some(Packet(version, kind, number, bytes[14..14 + size]))
  }

  // ---- to_bytes ----

  /** Appends the fields one by one, then patches the checksum into bytes 4 and 5. */
  method ToBytes(p: Packet) returns (bytes: Bytes)
    requires Representable(p)
    ensures bytes == Encode(p)
  {
    bytes := [];
    // magic, version, blank checksum
    bytes := bytes + [78] + [75];
    bytes := bytes + [ByteAt(p.version, 1)] + [ByteAt(p.version, 256)];
    bytes := bytes + [0] + [0];
    assert bytes == Layout(p, 0, 0)[..6];
    // kind, reserved, number
    bytes := bytes + [KindCode(p.kind)] + [0];
    bytes := bytes + [ByteAt(p.number, 1)] + [ByteAt(p.number, 0x100)];
    bytes := bytes + [ByteAt(p.number, 0x1_0000)] + [ByteAt(p.number, 0x100_0000)];
    assert bytes == Layout(p, 0, 0)[..HEADER];
    if 0 < |p.payload| <= MAX_LENGTH_FIELD {
      bytes := bytes + [ByteAt(|p.payload|, 1)] + [ByteAt(|p.payload|, 256)];
      bytes := bytes + p.payload;
    }
    assert bytes == Layout(p, 0, 0);
    var checksum := CalcChecksum(bytes);
    bytes := bytes[4 := ByteAt(checksum, 1)];
    bytes := bytes[5 := ByteAt(checksum, 256)];
    LayoutIsPatched(p, ByteAt(checksum, 1), ByteAt(checksum, 256));
  }

  /** The checks of from_bytes in their order. */
  method FromBytes(bytes: Bytes) returns (p: Option<Packet>)
    requires |bytes| != 0 && |bytes| != 13
    ensures p == Decode(bytes)
  {
    var checksum := CalcChecksum(bytes);
    if checksum != 0 {
      return None;
    }
    if |bytes| < HEADER {
      return None;
    }
    if bytes[0] != 78 || bytes[1] != 75 {
      return None;
    }
    var version := Read16(bytes[2], bytes[3]);
    var kind := KindOf(bytes[6]);
    if bytes[7] != 0 {
      return None;
    }
    var number := Read32(bytes[8], bytes[9], bytes[10], bytes[11]);
    var payload: Bytes := [];
    if |bytes| > HEADER {
      var size := Read16(bytes[12], bytes[13]);
      if |bytes| < 14 + size {
        return None;
      }
      payload := bytes[14..14 + size];
    }
    p := Some(Packet(version, kind, number, payload));
  }

  // ---- Round trip ----

  lemma LayoutIsPatched(p: Packet, low: byte, high: byte)
    ensures Layout(p, low, high) == Layout(p, 0, 0)[4 := low][5 := high]
  {}

  lemma PatchedSum(p: Packet, low: byte, high: byte)
    ensures WordSum(Layout(p, low, high)) == WordSum(Layout(p, 0, 0)) + low + 256 * high
  {
    var blank := Layout(p, 0, 0);
    WordSumUpdate(blank, 4, low);
    WordSumUpdate(blank[4 := low], 5, high);
    LayoutIsPatched(p, low, high);
  }

  lemma LayoutSumPositive(p: Packet)
    ensures WordSum(Layout(p, 0, 0)) > 0
  {
    assert Layout(p, 0, 0)[0] == 78;
  }

  /** Inserting the computed checksum makes the folded sum 0xFFFF. */
  lemma EncodedChecksumIsZero(p: Packet)
    ensures ChecksumOf(Encode(p)) == 0
  {
    var sum := WordSum(Layout(p, 0, 0));
    LayoutSumPositive(p);
    var checksum := ChecksumOf(Layout(p, 0, 0));
    PatchedSum(p, ByteAt(checksum, 1), ByteAt(checksum, 256));
    assert WordSum(Encode(p)) == sum + checksum;
    var residue := Residue(sum);
    ModAdd(checksum, sum, residue);
    assert checksum + residue == MODULUS;
    ZeroChecksum(Encode(p));
  }

  lemma EncodedLength(p: Packet)
    ensures |Encode(p)| == HEADER || 15 <= |Encode(p)| <= 14 + MAX_LENGTH_FIELD
    ensures 0 < |p.payload| <= MAX_LENGTH_FIELD ==> |Encode(p)| == 14 + |p.payload|
  {}

  lemma NumberBytes(value: nat)
    requires value < 0x1_0000_0000
    ensures Read32(ByteAt(value, 1), ByteAt(value, 0x100), ByteAt(value, 0x1_0000), ByteAt(value, 0x100_0000)) == value
  {
    var low, high := value % 0x1_0000, value / 0x1_0000;
    LowHalf(value);
    ShortBytes(low);
    ShortBytes(high);
    assert ByteAt(value, 0x100_0000) == ByteAt(high, 0x100) by {
      assert value / 0x100_0000 == value / 0x1_0000 / 0x100;
    }
  }

  lemma LowHalf(value: nat)
    ensures ByteAt(value, 1) == ByteAt(value % 0x1_0000, 1)
    ensures ByteAt(value, 0x100) == ByteAt(value % 0x1_0000, 0x100)
  {}

  lemma ShortBytes(value: nat)
    requires value < 0x1_0000
    ensures Read16(ByteAt(value, 1), ByteAt(value, 256)) == value
  {}

  lemma HeaderFields(p: Packet, low: byte, high: byte)
    requires Representable(p)
    ensures var bytes := Layout(p, low, high);
      && bytes[0] == 78 && bytes[1] == 75 && bytes[7] == 0
      && Read16(bytes[2], bytes[3]) == p.version
      && bytes[6] == KindCode(p.kind)
      && Read32(bytes[8], bytes[9], bytes[10], bytes[11]) == p.number
  {
    NumberBytes(p.number);
    ShortBytes(p.version);
  }

  lemma BodyFields(p: Packet, low: byte, high: byte)
    requires 0 < |p.payload| <= MAX_LENGTH_FIELD
    ensures var bytes := Layout(p, low, high);
      && |bytes| == 14 + |p.payload|
      && Read16(bytes[12], bytes[13]) == |p.payload|
      && bytes[14..14 + |p.payload|] == p.payload
  {
    ShortBytes(|p.payload|);
  }

  lemma KindByte(kind: PacketKind)
    requires kind.Unknown? ==> kind.code > 10
    ensures KindOf(KindCode(kind)) == kind
  {}

  /** What the checks of from_bytes make of a header with a zero checksum. */
  lemma DecodeHeader(bytes: Bytes, p: Packet)
    requires |bytes| == HEADER || |bytes| >= 14
    requires WrappedChecksum(bytes) == 0 && bytes[0] == 78 && bytes[1] == 75 && bytes[7] == 0
    requires Read16(bytes[2], bytes[3]) == p.version && KindOf(bytes[6]) == p.kind
    requires Read32(bytes[8], bytes[9], bytes[10], bytes[11]) == p.number
    requires if |bytes| == HEADER then p.payload == []
             else |bytes| == 14 + Read16(bytes[12], bytes[13]) && bytes[14..] == p.payload
    ensures Decode(bytes) == Some(p)
  {
    if |bytes| > HEADER {
      assert bytes[14..14 + Read16(bytes[12], bytes[13])] == bytes[14..];
    }
  }

  /** Decoding an encoded packet gives all of it, less a payload too long for the length field. */
  lemma DecodeEncode(p: Packet)
    requires Representable(p)
    ensures |Encode(p)| != 0 && |Encode(p)| != 13
    ensures Decode(Encode(p)) == Some(if |p.payload| <= MAX_LENGTH_FIELD then p else p.(payload := []))
  {
    EncodedLength(p);
    EncodedChecksumIsZero(p);
    NoWrap(Encode(p));
    KindByte(p.kind);
    var checksum := ChecksumOf(Layout(p, 0, 0));
    HeaderFields(p, ByteAt(checksum, 1), ByteAt(checksum, 256));
    if 0 < |p.payload| <= MAX_LENGTH_FIELD {
      BodyFields(p, ByteAt(checksum, 1), ByteAt(checksum, 256));
    }
    DecodeHeader(Encode(p), if |p.payload| <= MAX_LENGTH_FIELD then p else p.(payload := []));
  }

  /** The enumeration of packet.hpp, in the order of its codes. */
  const CODES: seq<PacketKind> :=
    [NoKind, Data, DataAck, DataPush, DataPushAck, DataStop, DataStopAck, ConnReq, ConnAck, DisconnReq, DisconnAck]

  /** The wire code of a kind is its place in the enumeration; a code beyond it stands for itself. */
  lemma KindOnTheWire(p: Packet)
    requires Representable(p)
    ensures if p.kind.Unknown? then Encode(p)[6] == p.kind.code > 10
            else Encode(p)[6] <= 10 && CODES[Encode(p)[6]] == p.kind
  {}

  lemma KindFromTheWire(bytes: Bytes)
    requires |bytes| != 0 && |bytes| != 13 && Decode(bytes).Some?
    ensures |bytes| >= 12
    ensures Decode(bytes).value.kind == if bytes[6] <= 10 then CODES[bytes[6]] else Unknown(bytes[6])
  {}

  /** What is decoded fits the fields of the C++ class. */
  lemma DecodedFits(bytes: Bytes)
    requires |bytes| != 0 && |bytes| != 13 && Decode(bytes).Some?
    ensures Representable(Decode(bytes).value) && |Decode(bytes).value.payload| <= 65535
  {}

  /** from_bytes accepts exactly what has a zero checksum, a whole header with the magic and the reserved zero,
      and, if it is longer, as many bytes as its length field says. */
  lemma AcceptsExactly(bytes: Bytes)
    requires |bytes| != 0 && |bytes| != 13 && |bytes| <= MAX_LENGTH
    ensures Decode(bytes).Some? <==>
      && WordSum(bytes) > 0 && WordSum(bytes) % 65535 == 0
      && |bytes| >= 12 && bytes[0] == 'N' as int && bytes[1] == 'K' as int && bytes[7] == 0
      && (|bytes| > 12 ==> |bytes| >= 14 + bytes[12] + 256 * (bytes[13] as nat))
  {
    NoWrap(bytes);
    ZeroChecksum(bytes);
  }

  /** The layout that packet.hpp draws, with little-endian fields. */
  lemma WireLayout(p: Packet)
    requires Representable(p)
    ensures var b := Encode(p);
      && |b| == (if 0 < |p.payload| <= 65535 then 14 + |p.payload| else 12)
      && b[0] == 'N' as int && b[1] == 'K' as int
      && b[2] + 256 * (b[3] as nat) == p.version
      && b[7] == 0
      && b[8] + 256 * (b[9] as nat) + 65536 * (b[10] as nat) + 16777216 * (b[11] as nat) == p.number
      && (0 < |p.payload| <= 65535 ==> b[12] + 256 * (b[13] as nat) == |p.payload| && b[14..] == p.payload)
  {
    var checksum := ChecksumOf(Layout(p, 0, 0));
    HeaderFields(p, ByteAt(checksum, 1), ByteAt(checksum, 256));
    if 0 < |p.payload| <= MAX_LENGTH_FIELD {
      BodyFields(p, ByteAt(checksum, 1), ByteAt(checksum, 256));
    }
  }

  /** The round trip for the eleven named kinds. */
  lemma NamedRoundTrip(p: Packet)
    requires p.kind in CODES && p.version < 0x1_0000 && p.number < 0x1_0000_0000
    ensures |Encode(p)| != 0 && |Encode(p)| != 13
    ensures Decode(Encode(p)) == Some(p) <==> |p.payload| <= 65535
  {
    RoundTrip(p);
  }

  /** An empty Data packet numbered 2, byte by byte. */
  lemma KnownDatagram()
    ensures Encode(Packet(1, Data, 2, [])) == [78, 75, 1, 0, 173, 180, 1, 0, 2, 0, 0, 0]
  {
    var p := Packet(1, Data, 2, []);
    var blank := Layout(p, 0, 0);
    assert blank == [78, 75, 1, 0, 0, 0, 1, 0, 2, 0, 0, 0];
    assert WordSum(blank[10..]) == 0;
    assert WordSum(blank[8..]) == 2 && blank[8..][2..] == blank[10..];
    assert WordSum(blank[6..]) == 3 && blank[6..][2..] == blank[8..];
    assert WordSum(blank[4..]) == 3 && blank[4..][2..] == blank[6..];
    assert WordSum(blank[2..]) == 4 && blank[2..][2..] == blank[4..];
    assert WordSum(blank) == 19282;
    assert ChecksumOf(blank) == 46253;
  }

  /** The round trip holds exactly for payloads that fit the 16-bit length field. */
  lemma RoundTrip(p: Packet)
    requires Representable(p)
    ensures |Encode(p)| != 0 && |Encode(p)| != 13
    ensures Decode(Encode(p)) == Some(p) <==> |p.payload| <= MAX_LENGTH_FIELD
  {
    DecodeEncode(p);
    assert |p.payload| > MAX_LENGTH_FIELD ==> p.(payload := []) != p;
  }

  /** No two distinct packets with payloads that fit share an encoding. */
  lemma EncodeInjective(p: Packet, q: Packet)
    requires Representable(p) && |p.payload| <= MAX_LENGTH_FIELD
    requires Representable(q) && |q.payload| <= MAX_LENGTH_FIELD
    requires Encode(p) == Encode(q)
    ensures p == q
  {
    DecodeEncode(p);
    DecodeEncode(q);
  }

  /** Any other value at any one position of an encoded packet is rejected. */
  lemma OneByteDetected(p: Packet, k: nat, b: byte)
    requires k < |Encode(p)| && b != Encode(p)[k]
    ensures |Encode(p)| != 0 && |Encode(p)| != 13
    ensures Decode(Encode(p)[k := b]) == None
  {
    EncodedLength(p);
    EncodedChecksumIsZero(p);
    NoWrap(Encode(p)[k := b]);
    OneByteBreaksZeroChecksum(Encode(p), k, b);
  }
}

/** The one's-complement checksum of packet.cpp, and its arithmetic. */
module Checksum {
  import opened Packets

  const BASE: nat := 0x1_0000
  const MODULUS: nat := 0xFFFF

  /** The longest input whose 16-bit words cannot overflow the 32-bit accumulator. */
  const MAX_LENGTH: nat := 131074

  /** The sum of the little-endian 16-bit words; an odd last byte is the low half of a word. */
  function WordSum(bytes: Bytes): nat {
    if |bytes| == 0 then 0
    else if |bytes| == 1 then bytes[0]
    else bytes[0] + 256 * bytes[1] + WordSum(bytes[2..])
  }

  /** The sum of RFC 1071: big-endian words, an odd last byte is the high half of a word. */
  function NetworkWordSum(bytes: Bytes): nat {
    if |bytes| == 0 then 0
    else if |bytes| == 1 then 256 * bytes[0]
    else 256 * bytes[0] + bytes[1] + NetworkWordSum(bytes[2..])
  }

  /** The one's-complement value of a sum: its residue modulo 0xFFFF, zero only for a zero sum. */
  function Residue(sum: nat): (r: nat)
    ensures r <= MODULUS
    ensures r == 0 <==> sum == 0
    ensures r % MODULUS == sum % MODULUS
  {
    if sum == 0 then 0 else (sum - 1) % MODULUS + 1
  }

  function ChecksumOf(bytes: Bytes): (r: nat)
    ensures r <= MODULUS
  {
    MODULUS - Residue(WordSum(bytes))
  }

  /** The 32-bit accumulator wraps. */
  const ACCUMULATOR: nat := 0x1_0000_0000

  /** What calc_checksum makes of an input of any length. */
  function WrappedChecksum(bytes: Bytes): (r: nat)
    ensures r <= MODULUS
  {
    MODULUS - Residue(WordSum(bytes) % ACCUMULATOR)
  }

  /** Section 1 of RFC 1071, read as network byte order. */
  function NetworkChecksum(bytes: Bytes): (r: nat)
    ensures r <= MODULUS
  {
    MODULUS - Residue(NetworkWordSum(bytes))
  }

  function SwapBytes(word: nat): (r: nat)
    requires word <= MODULUS
    ensures r <= MODULUS
  {
    word % 256 * 256 + word / 256
  }

  // ---- The loops of calc_checksum ----

  lemma {:induction false} WordSumBound(bytes: Bytes)
    ensures WordSum(bytes) <= MODULUS * ((|bytes| + 1) / 2)
  {
    if |bytes| >= 2 {
      WordSumBound(bytes[2..]);
    }
  }

  /** No sum of at most 131074 bytes wraps. */
  lemma NoWrap(bytes: Bytes)
    ensures |bytes| <= MAX_LENGTH ==> WordSum(bytes) < ACCUMULATOR && WrappedChecksum(bytes) == ChecksumOf(bytes)
  {
    if |bytes| <= MAX_LENGTH {
      ShortSum(bytes);
      assert WordSum(bytes) % ACCUMULATOR == WordSum(bytes);
    }
  }

  lemma ShortSum(bytes: Bytes)
    requires |bytes| <= MAX_LENGTH
    ensures WordSum(bytes) < ACCUMULATOR
  {
    WordSumBound(bytes);
    assert (|bytes| + 1) / 2 <= 65537;
  }

  lemma WrapEarly(x: nat, y: nat)
    ensures (x % ACCUMULATOR + y) % ACCUMULATOR == (x + y) % ACCUMULATOR
  {
    var wraps := x / ACCUMULATOR;
    assert x + y == x % ACCUMULATOR + y + ACCUMULATOR * wraps;
    ModShiftBy(x % ACCUMULATOR + y, wraps);
  }

  lemma {:induction false} ModShiftBy(x: nat, k: nat)
    ensures (x + ACCUMULATOR * k) % ACCUMULATOR == x % ACCUMULATOR
  {
    if k > 0 {
      ModShiftBy(x, k - 1);
      assert x + ACCUMULATOR * k == (x + ACCUMULATOR * (k - 1)) + ACCUMULATOR;
    }
  }

  lemma FoldKeepsResidue(sum: nat)
    requires sum >= BASE
    ensures Residue(sum % BASE + sum / BASE) == Residue(sum)
    ensures sum % BASE + sum / BASE < sum
  {
    var folded := sum % BASE + sum / BASE;
    assert sum - 1 == (folded - 1) + MODULUS * (sum / BASE);
    ResidueShift(folded, sum / BASE);
  }

  lemma ResidueShift(sum: nat, k: nat)
    requires sum > 0
    ensures Residue(sum + MODULUS * k) == Residue(sum)
  {
    ModShift(sum - 1, k);
    assert sum + MODULUS * k - 1 == sum - 1 + MODULUS * k;
  }

  lemma {:induction false} ModShift(x: nat, k: nat)
    ensures (x + MODULUS * k) % MODULUS == x % MODULUS
  {
    if k > 0 {
      ModShift(x, k - 1);
      assert x + MODULUS * k == (x + MODULUS * (k - 1)) + MODULUS;
    }
  }

  /** Adding the next word to a sum that wraps keeps what the sum and the rest come to. */
  lemma NextWord(bytes: Bytes, i: nat, low: nat, high: nat, sum: nat)
    requires i + 2 <= |bytes| && low == bytes[i] && high == bytes[i + 1]
    ensures ((sum + (low + 256 * high)) % ACCUMULATOR + WordSum(bytes[i + 2..])) % ACCUMULATOR
      == (sum + WordSum(bytes[i..])) % ACCUMULATOR
  {
    assert bytes[i..][2..] == bytes[i + 2..];
    WrapEarly(sum + (low + 256 * high), WordSum(bytes[i + 2..]));
  }

  /** The two summing loops of calc_checksum: the words, and then an odd last byte. */
  method SumWords(bytes: Bytes) returns (sum: nat)
    requires bytes != []
    ensures sum == WordSum(bytes) % ACCUMULATOR
    ensures |bytes| <= MAX_LENGTH ==> sum == WordSum(bytes)
  {
    sum := 0;
    var i := 0;
    NoWrap(bytes);
    while i < |bytes| - 1
      invariant 0 <= i <= |bytes| && i % 2 == 0
      invariant sum < ACCUMULATOR
      invariant (sum + WordSum(bytes[i..])) % ACCUMULATOR == WordSum(bytes) % ACCUMULATOR
    {
      var low: nat, high: nat := bytes[i], bytes[i + 1];
      NextWord(bytes, i, low, high, sum);
      sum := (sum + (low + 256 * high)) % ACCUMULATOR;
      i := i + 2;
    }
    if |bytes| % 2 == 1 {
      var word: nat := bytes[|bytes| - 1];
      sum := (sum + word) % ACCUMULATOR;
    }
  }

  /** The fold loop of calc_checksum: carries are added back until the sum fits 16 bits. */
  method FoldSum(start: nat) returns (sum: nat)
    ensures sum == Residue(start)
  {
    sum := start;
    while sum / BASE != 0
      invariant Residue(sum) == Residue(start)
      decreases sum
    {
      FoldKeepsResidue(sum);
      sum := sum % BASE + sum / BASE;
    }
  }

  /** calc_checksum, with its 32-bit accumulator written out. */
  method CalcChecksum(bytes: Bytes) returns (checksum: nat)
    requires bytes != []
    ensures checksum <= MODULUS
    ensures checksum == WrappedChecksum(bytes)
    ensures |bytes| <= MAX_LENGTH ==> checksum == ChecksumOf(bytes)
  {
    var sum := SumWords(bytes);
    sum := FoldSum(sum);
    checksum := MODULUS - sum;
  }

  // ---- The sum, byte by byte ----

  /** The first `n` bytes, each with the weight of its position. */
  function WeightedSum(bytes: Bytes, n: nat): nat
    requires n <= |bytes|
  {
    if n == 0 then 0 else WeightedSum(bytes, n - 1) + bytes[n - 1] * Weight(n - 1)
  }

  lemma {:induction false} WeightedTail(bytes: Bytes, n: nat)
    requires 2 <= n <= |bytes|
    ensures WeightedSum(bytes, n) == bytes[0] + 256 * (bytes[1] as nat) + WeightedSum(bytes[2..], n - 2)
  {
    if n > 2 {
      WeightedTail(bytes, n - 1);
      assert Weight(n - 1) == Weight(n - 3);
    } else {
      assert WeightedSum(bytes, 1) == bytes[0];
    }
  }

  /** The word sum is the sum of the bytes, those at odd positions times 256; an odd length changes nothing. */
  lemma {:induction false} WordSumIsWeighted(bytes: Bytes)
    ensures WordSum(bytes) == WeightedSum(bytes, |bytes|)
  {
    if |bytes| >= 2 {
      WordSumIsWeighted(bytes[2..]);
      WeightedTail(bytes, |bytes|);
    } else if |bytes| == 1 {
      assert WeightedSum(bytes, 1) == WeightedSum(bytes, 0) + bytes[0];
    }
  }

  /** The numerical example of section 3 of RFC 1071. */
  lemma KnownEvenChecksum()
    ensures NetworkChecksum([0x00, 0x01, 0xf2, 0x03, 0xf4, 0xf5, 0xf6, 0xf7]) == 0x220d
    ensures ChecksumOf([0x00, 0x01, 0xf2, 0x03, 0xf4, 0xf5, 0xf6, 0xf7]) == 0x0d22
  {
    var bytes := [0x00, 0x01, 0xf2, 0x03, 0xf4, 0xf5, 0xf6, 0xf7];
    var six, four, two := bytes[2..], bytes[4..], bytes[6..];
    assert six[2..] == four && four[2..] == two && two[2..] == [];
    assert NetworkWordSum(two) == 0xf6f7;
    assert NetworkWordSum(four) == 0x1ebec;
    assert NetworkWordSum(six) == 0x2ddef;
    assert NetworkWordSum(bytes) == 0x2ddf0;
    assert SwapBytes(0x220d) == 0x0d22;
    ByteOrderIndependence(bytes);
  }

  /** The first three bytes of that example. */
  lemma KnownOddChecksum()
    ensures NetworkChecksum([0x00, 0x01, 0xf2]) == 0x0dfe
    ensures ChecksumOf([0x00, 0x01, 0xf2]) == 0xfe0d
  {
    var bytes := [0x00, 0x01, 0xf2];
    assert bytes[2..] == [0xf2];
    assert NetworkWordSum(bytes) == 0xf201;
    assert SwapBytes(0x0dfe) == 0xfe0d;
    ByteOrderIndependence(bytes);
  }

  // ---- What a zero checksum means, and how one byte moves the sum ----

  lemma ZeroChecksum(bytes: Bytes)
    ensures ChecksumOf(bytes) == 0 <==> WordSum(bytes) > 0 && WordSum(bytes) % MODULUS == 0
  {
    var sum := WordSum(bytes);
    if sum > 0 && sum % MODULUS == 0 {
      assert sum - 1 == (sum / MODULUS - 1) * MODULUS + (MODULUS - 1);
      ModShift(MODULUS - 1, sum / MODULUS - 1);
    }
  }

  /** The weight of a position: even bytes are low halves, odd bytes are high halves. */
  function Weight(k: nat): nat {
    if k % 2 == 0 then 1 else 256
  }

  lemma {:induction false} WordSumUpdate(bytes: Bytes, k: nat, b: byte)
    requires k < |bytes|
    ensures WordSum(bytes[k := b]) == WordSum(bytes) + (b - bytes[k]) * Weight(k)
  {
    if k >= 2 {
      assert bytes[k := b][2..] == bytes[2..][k - 2 := b];
      WordSumUpdate(bytes[2..], k - 2, b);
    } else if |bytes| > 1 {
      assert bytes[k := b][2..] == bytes[2..];
    }
  }

  /** A change of one byte moves the sum by d or 256 * d, which is never 0 modulo 0xFFFF. */
  lemma SmallShiftChangesResidue(sum: nat, sum': nat, d: int, weight: nat)
    requires -256 < d < 256 && d != 0
    requires weight == 1 || weight == 256
    requires sum' == sum + d * weight
    requires sum % MODULUS == 0
    ensures sum' % MODULUS != 0
  {
    assert d * weight != 0 && -65535 < d * weight < 65535;
  }

  /** Any input with a zero checksum loses it when one byte takes any other value. */
  lemma OneByteBreaksZeroChecksum(bytes: Bytes, k: nat, b: byte)
    requires k < |bytes| && b != bytes[k]
    requires ChecksumOf(bytes) == 0
    ensures ChecksumOf(bytes[k := b]) != 0
  {
    ZeroChecksum(bytes);
    ZeroChecksum(bytes[k := b]);
    WordSumUpdate(bytes, k, b);
    SmallShiftChangesResidue(WordSum(bytes), WordSum(bytes[k := b]), b - bytes[k], Weight(k));
  }

  // ---- Byte-order independence: section 2(B) of RFC 1071 ----

  lemma {:induction false} NetworkSumIsSwapped(bytes: Bytes)
    ensures NetworkWordSum(bytes) % MODULUS == (256 * WordSum(bytes)) % MODULUS
    ensures NetworkWordSum(bytes) == 0 <==> WordSum(bytes) == 0
  {
    if |bytes| >= 2 {
      NetworkSumIsSwapped(bytes[2..]);
      var rest, rest' := WordSum(bytes[2..]), NetworkWordSum(bytes[2..]);
      var first: nat, second: nat := bytes[0], bytes[1];
      assert 256 * WordSum(bytes) == 256 * first + second + 256 * rest + MODULUS * second;
      ModShift(256 * first + second + 256 * rest, second);
      ModAdd(256 * first + second, rest', 256 * rest);
    }
  }

  lemma ModAdd(a: nat, x: nat, y: nat)
    requires x % MODULUS == y % MODULUS
    ensures (a + x) % MODULUS == (a + y) % MODULUS
  {
    var m := x % MODULUS;
    assert a + x == (a + m) + MODULUS * (x / MODULUS);
    assert a + y == (a + m) + MODULUS * (y / MODULUS);
    ModShift(a + m, x / MODULUS);
    ModShift(a + m, y / MODULUS);
  }

  lemma ModScale(x: nat, y: nat)
    requires x % MODULUS == y % MODULUS
    ensures (256 * x) % MODULUS == (256 * y) % MODULUS
  {
    var m := x % MODULUS;
    assert 256 * x == 256 * m + MODULUS * (256 * (x / MODULUS));
    assert 256 * y == 256 * m + MODULUS * (256 * (y / MODULUS));
    ModShift(256 * m, 256 * (x / MODULUS));
    ModShift(256 * m, 256 * (y / MODULUS));
  }

  /** Two reduced values with one residue, both zero or both not, are one value. */
  lemma SameResidue(x: nat, y: nat)
    requires x <= MODULUS && y <= MODULUS
    requires x % MODULUS == y % MODULUS
    requires x == 0 <==> y == 0
    ensures x == y
  {}

  lemma SwapIsScale(word: nat)
    requires word <= MODULUS
    ensures SwapBytes(word) % MODULUS == (256 * word) % MODULUS
    ensures SwapBytes(word) == 0 <==> word == 0
    ensures SwapBytes(MODULUS - word) == MODULUS - SwapBytes(word)
  {
    assert 256 * word == SwapBytes(word) + MODULUS * (word / 256);
    ModShift(SwapBytes(word), word / 256);
    var other := MODULUS - word;
    assert other / 256 == 255 - word / 256 && other % 256 == 255 - word % 256;
  }

  /** The little-endian checksum is the byte swap of the checksum RFC 1071 defines. */
  lemma ByteOrderIndependence(bytes: Bytes)
    ensures ChecksumOf(bytes) == SwapBytes(NetworkChecksum(bytes))
    ensures NetworkChecksum(bytes) == SwapBytes(ChecksumOf(bytes))
  {
    var little, network := Residue(WordSum(bytes)), Residue(NetworkWordSum(bytes));
    NetworkSumIsSwapped(bytes);
    ModScale(little, WordSum(bytes));
    SwapIsScale(little);
    SameResidue(SwapBytes(little), network);
    SwapTwice(little);
    SwapIsScale(network);
  }

  lemma SwapTwice(word: nat)
    requires word <= MODULUS
    ensures SwapBytes(SwapBytes(word)) == word
  {
    assert SwapBytes(word) / 256 == word % 256;
    assert SwapBytes(word) % 256 == word / 256;
  }
}

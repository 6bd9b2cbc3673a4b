/** The 32-bit sequence numbers of packet.hpp: arithmetic wraps, order does not. */
module SequenceNumbers {
  const LIMIT: nat := 0x1_0000_0000

  type SequenceNumber = n: nat | n < LIMIT

  /** SequenceNumber::update */
  function Next(n: SequenceNumber): SequenceNumber {
    (n + 1) % LIMIT
  }

  /** SequenceNumber::inv_update */
  function Previous(n: SequenceNumber): SequenceNumber {
    (n - 1) % LIMIT
  }

  function Minus(a: SequenceNumber, b: SequenceNumber): SequenceNumber {
    (a - b) % LIMIT
  }

  function Plus(a: SequenceNumber, b: SequenceNumber): SequenceNumber {
    (a + b) % LIMIT
  }

  /** The `(uint32_t)` cast of a size. */
  function Truncate(size: nat): SequenceNumber {
    size % LIMIT
  }

  /** The send window's test by wrapping subtraction is right even across the wrap. */
  lemma MinusMeasuresDistance(lower: SequenceNumber, distance: SequenceNumber)
    ensures Minus(Plus(lower, distance), lower) == distance
    ensures Next(Previous(lower)) == lower && Previous(Next(lower)) == lower
  {
    var sum := lower + distance;
    assert sum % LIMIT == if sum < LIMIT then sum else sum - LIMIT;
  }
}

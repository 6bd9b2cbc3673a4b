/** ConcurrentWindow of concurrency.hpp, over wrapping 32-bit numbers. */
module ConcurrentWindows {
  import opened SequenceNumbers

  class ConcurrentWindow {
    var first: SequenceNumber
    var second: SequenceNumber
    const maxWindowSize: nat

    constructor (maxWindowSize: nat)
      ensures first == 0 && second == 0 && this.maxWindowSize == maxWindowSize
    {
      first, second := 0, 0;
      this.maxWindowSize := maxWindowSize;
    }

    /** What wait_window_available waits for: without wrap it is the unbounded comparison. */
    method Available() returns (available: bool)
      ensures available <==> Minus(second, first) < Truncate(maxWindowSize)
      ensures first <= second && maxWindowSize < LIMIT ==> (available <==> second - first < maxWindowSize)
    {
      available := Minus(second, first) < Truncate(maxWindowSize);
    }

    /** What wait_window_zero waits for. */
    method Zero() returns (zero: bool)
      ensures zero <==> first == second
    {
      zero := first == second;
    }

    method SetLowerBound(lower: SequenceNumber)
      modifies this
      ensures first == lower && second == old(second)
    {
      first := lower;
    }

    method UpdateLowerBound()
      modifies this
      ensures first == Next(old(first)) && second == old(second)
    {
      first := Next(first);
    }

    method UpdateUpperBound()
      modifies this
      ensures second == Next(old(second)) && first == old(first)
    {
      second := Next(second);
    }
  }
}

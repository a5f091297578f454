/** The wall clock, in nanoseconds. It may advance by any amount between two readings and never runs backwards. */
module Clocks {

  class Clock {
    var now: int

    method Read() returns (t: int)
      modifies this
      ensures t == now >= old(now)
    {
      var passed :| 0 <= passed;
      now := now + passed;
      t := now;
    }
  }

  const NANOS_PER_MILLI := 1_000_000

  /** A duration in whole seconds, by way of whole milliseconds. */
  function Seconds(since: int, now: int): int {
    (now - since) / NANOS_PER_MILLI / 1000
  }

  /** An age of n seconds lasts from the nth second on until the next is complete. */
  lemma SecondsAreSeconds(since: int, now: int, n: int)
    ensures Seconds(since, now) == n <==> n * 1_000_000_000 <= now - since < (n + 1) * 1_000_000_000
  {
    var d := now - since;
    var ms := d / NANOS_PER_MILLI;
    assert ms * NANOS_PER_MILLI <= d < (ms + 1) * NANOS_PER_MILLI;
    var s := ms / 1000;
    assert s * 1000 <= ms < (s + 1) * 1000;
  }

  lemma SecondsMonotone(a: int, b: int, c: int, d: int)
    requires a <= b && c <= d
    ensures Seconds(b, c) <= Seconds(a, d)
  {
    assert (c - b) / NANOS_PER_MILLI <= (d - a) / NANOS_PER_MILLI;
  }
}

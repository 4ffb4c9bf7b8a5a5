/** Slots and wall-clock time in nanoseconds, with the current time as a parameter. */
module Clock {
  import opened Wrappers

  const NANOS_PER_MILLI: nat := 1_000_000

  /** Division of signed integers that truncates towards zero. */
  function TruncatingDiv(a: int, b: nat): int
    requires b > 0
  {
    if a >= 0 then a / b else -((-a) / b)
  }

  datatype NetworkClock = NetworkClock(genesis: nat, nanosPerSlot: nat) {
    function SlotTimestampNanos(slot: nat): nat {
      slot * nanosPerSlot + genesis
    }

    /** None before genesis. */
    function CurrentSlot(now: nat): Option<nat>
      requires nanosPerSlot > 0
    {
      if now < genesis then None else Some((now - genesis) / nanosPerSlot)
    }

    function TimeUntilSlotSignedMs(slot: nat, now: nat): int {
      TruncatingDiv(SlotTimestampNanos(slot) - now, NANOS_PER_MILLI)
    }
  }

  lemma DivBounds(x: nat, d: nat, q: nat)
    requires d > 0
    ensures x / d == q <==> q * d <= x < (q + 1) * d
  {
    var r := x / d;
    assert r * d <= x < r * d + d;
    if q < r {
      assert (q + 1) * d <= r * d;
    } else if r < q {
      assert (r + 1) * d <= q * d;
    }
  }

  /** The current slot is the one slot whose time has come and whose successor's has not. */
  lemma CurrentSlotIff(c: NetworkClock, now: nat, slot: nat)
    requires c.nanosPerSlot > 0
    ensures c.CurrentSlot(now) == Some(slot) <==>
            c.SlotTimestampNanos(slot) <= now < c.SlotTimestampNanos(slot + 1)
  {
    if now >= c.genesis {
      DivBounds(now - c.genesis, c.nanosPerSlot, slot);
    }
    assert 0 <= slot * c.nanosPerSlot;
  }

  lemma FactorsKeepOrder(x: nat, y: nat, d: nat)
    ensures x <= y ==> x * d <= y * d
  {
    if x <= y {
      assert y * d == x * d + (y - x) * d;
    }
  }

  lemma DivMonotone(a: nat, b: nat, d: nat)
    requires a <= b && d > 0
    ensures a / d <= b / d
  {
    DivBounds(a, d, a / d);
    DivBounds(b, d, b / d);
    FactorsKeepOrder(b / d + 1, a / d, d);
  }

  /** The signed milliseconds left are the nanoseconds to the slot's start without their fraction of
      a millisecond, on either side of it. */
  lemma MillisBracketNanos(c: NetworkClock, slot: nat, now: nat)
    ensures var ms, nanos := c.TimeUntilSlotSignedMs(slot, now), slot * c.nanosPerSlot + c.genesis - now;
            && (nanos >= 0 ==> 1_000_000 * ms <= nanos < 1_000_000 * (ms + 1))
            && (nanos <= 0 ==> 1_000_000 * (ms - 1) < nanos <= 1_000_000 * ms)
  {
  }

  /** As time passes the time left never grows, although the division rounds towards zero and
      so rounds up before the slot begins and down after it. */
  lemma TimeLeftNeverGrows(c: NetworkClock, slot: nat, now: nat, later: nat)
    requires now <= later
    ensures c.TimeUntilSlotSignedMs(slot, later) <= c.TimeUntilSlotSignedMs(slot, now)
  {
    var a, b := c.SlotTimestampNanos(slot) - later, c.SlotTimestampNanos(slot) - now;
    if a >= 0 {
      DivMonotone(a, b, NANOS_PER_MILLI);
    } else if b < 0 {
      DivMonotone(-b, -a, NANOS_PER_MILLI);
    }
  }
}

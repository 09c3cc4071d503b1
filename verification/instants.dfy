/**
 * Millisecond instants and whole days. A date-only value such as a
 * transaction or invoice date is read by `new Date(...)` as midnight (UTC)
 * of its day; days are numbered consecutively, day 0 at the epoch.
 */
module Instants {
  const MsPerDay: int := 86400000

  /** The instant a date-only value denotes. */
  function Midnight(day: int): int
  {
    day * MsPerDay
  }

  lemma MultiplyMonotone(a: int, b: int, c: int)
    requires a <= b && c >= 0
    ensures a * c <= b * c
  {
    assert b * c - a * c == (b - a) * c;
  }

  lemma MultiplyStrict(a: int, b: int, c: int)
    requires c > 0
    ensures a * c < b * c <==> a < b
  {
    if a < b {
      MultiplyMonotone(a + 1, b, c);
    } else {
      MultiplyMonotone(b, a, c);
    }
  }

  /** The first day whose midnight lies at or after `start`. */
  function FirstDay(start: int): (k: int)
    ensures forall d :: k <= d <==> start <= Midnight(d)
  {
    var k := -((-start) / MsPerDay);
    FirstDayBracket(start, k);
    k
  }

  lemma FirstDayBracket(start: int, k: int)
    requires k == -((-start) / MsPerDay)
    ensures forall d :: k <= d <==> start <= Midnight(d)
  {
    var q := (-start) / MsPerDay;
    assert q * MsPerDay <= -start < (q + 1) * MsPerDay;
    forall d
      ensures k <= d <==> start <= Midnight(d)
    {
      if k <= d {
        MultiplyMonotone(k, d, MsPerDay);
      } else {
        MultiplyMonotone(d, k - 1, MsPerDay);
      }
    }
  }

  /** The last day whose midnight lies at or before `end`. */
  function LastDay(end: int): (k: int)
    ensures forall d :: d <= k <==> Midnight(d) <= end
  {
    var k := end / MsPerDay;
    LastDayBracket(end, k);
    k
  }

  lemma LastDayBracket(end: int, k: int)
    requires k == end / MsPerDay
    ensures forall d :: d <= k <==> Midnight(d) <= end
  {
    assert k * MsPerDay <= end < (k + 1) * MsPerDay;
    forall d
      ensures d <= k <==> Midnight(d) <= end
    {
      if d <= k {
        MultiplyMonotone(d, k, MsPerDay);
      } else {
        MultiplyMonotone(k + 1, d, MsPerDay);
      }
    }
  }
}

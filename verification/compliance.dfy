/**
 * The compliance calendar's badge: whole days until a due instant, rounded
 * up, and the classification into overdue, due soon, days left or completed.
 */
module Compliance {
  import Text
  import opened Instants

  /** `Math.ceil((due - now) / msPerDay)` for millisecond instants. */
  function DaysUntil(due: int, now: int): (d: int)
    ensures (d - 1) * MsPerDay < due - now <= d * MsPerDay
  {
    var m := MsPerDay;
    var q := (now - due) / m;
    assert q * m <= now - due < (q + 1) * m;
    -q
  }

  /** Rounding up is exact: the day count is the only integer that brackets the gap that way. */
  lemma DaysUntilUnique(due: int, now: int, d: int)
    requires (d - 1) * MsPerDay < due - now <= d * MsPerDay
    ensures d == DaysUntil(due, now)
  {
    var e := DaysUntil(due, now);
    MultiplyStrict(d - 1, e, MsPerDay);
    MultiplyStrict(e - 1, d, MsPerDay);
  }

  datatype Badge = OverdueBadge | DueSoon | DaysLeft(days: nat) | Completed

  /** The badge of `loadComplianceCalendar`: overdue before day zero, due soon
      from day zero to day seven, otherwise the number of days left. */
  function Classify(d: int): (b: Badge)
    ensures b.OverdueBadge? <==> d < 0
    ensures b.DueSoon? <==> 0 <= d <= 7
    ensures b.DaysLeft? ==> b.days == d
  {
    if d < 0 then OverdueBadge
    else if d <= 7 then DueSoon
    else if d > 0 then DaysLeft(d)
    else Completed
  }

  /** The last branch cannot be reached: every day count gets one of the first three badges. */
  lemma CompletedNeverShown(d: int)
    ensures Classify(d) != Completed
    ensures Classify(d).DaysLeft? <==> d > 7
  {
  }

  /** The text in the badge: a day count starts with its digits, every other
      badge with a capital letter. */
  function BadgeText(b: Badge): (t: string)
    ensures |t| > 0
    ensures b.DaysLeft? <==> Text.IsDigit(t[0])
  {
    match b
    case OverdueBadge => "OVERDUE"
    case DueSoon => "DUE SOON"
    case DaysLeft(n) => Text.Decimal(n) + " days left"
    case Completed => "COMPLETED"
  }

  /** Rounding up means an item turns overdue only once a whole day has passed
      since its due instant; until then it is due soon. */
  lemma OverdueAfterAWholeDay(due: int, now: int)
    ensures Classify(DaysUntil(due, now)).OverdueBadge? <==> now - due >= MsPerDay
    ensures 0 <= now - due < MsPerDay ==> Classify(DaysUntil(due, now)) == DueSoon
  {
    var d := DaysUntil(due, now);
    var m := MsPerDay;
    if d < 0 {
      MultiplyMonotone(d, -1, m);
    } else {
      MultiplyMonotone(0, d, m);
    }
  }
}

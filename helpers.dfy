/** The shared relative-time label (utils/helpers.ts), used by the notification list. */
module Helpers {
  import opened Text
  import opened Types

  /** The label kinds; `OnDate` is the locale date string of the timestamp. */
  datatype Relative =
    | JustNow
    | MinutesAgo(minutes: nat)
    | HoursAgo(hours: nat)
    | DaysAgo(days: nat)
    | OnDate

  /** `formatRelativeTime(timestamp)` at instant `now`, both in milliseconds;
      `Math.floor` of a quotient by a positive divisor is Dafny's `/`. */
  function FormatRelativeTime(now: Millis, past: Millis): (r: Relative)
    ensures r.MinutesAgo? ==> r.minutes < 60
    ensures r.HoursAgo? ==> 1 <= r.hours < 24
    ensures r.DaysAgo? ==> 1 <= r.days <= 7
  {
    var seconds := (now - past) / 1000;
    if seconds < 5 then JustNow
    else
      var minutes := seconds / 60;
      if minutes < 60 then MinutesAgo(minutes)
      else
        var hours := minutes / 60;
        if hours < 24 then HoursAgo(hours)
        else
          var days := hours / 24;
          if days <= 7 then DaysAgo(days) else OnDate
  }

  /** The label text: a count reads back from the digits before its unit. */
  function Render(r: Relative, dateString: string): (s: string)
    ensures r.MinutesAgo? ==> ReadsAs(s, r.minutes, "m ago")
    ensures r.HoursAgo? ==> ReadsAs(s, r.hours, "h ago")
    ensures r.DaysAgo? ==> ReadsAs(s, r.days, "d ago")
    ensures r == OnDate ==> s == dateString
    ensures r == JustNow ==> s == "just now"
  {
    match r
    case JustNow => "just now"
    case MinutesAgo(n) => NumberThenUnit(n, "m ago"); NatToString(n) + "m ago"
    case HoursAgo(n) => NumberThenUnit(n, "h ago"); NatToString(n) + "h ago"
    case DaysAgo(n) => NumberThenUnit(n, "d ago"); NatToString(n) + "d ago"
    case OnDate => dateString
  }

  /** The bucket boundaries in milliseconds: under 5 s (future included) is "just
      now", then minutes below one hour (5 to 59 s read "0m ago"), hours below a day,
      days up to a week, and a date beyond 8 days. */
  lemma FormatRelativeTimeBuckets(now: Millis, past: Millis)
    ensures var d, r := now - past, FormatRelativeTime(now, past);
            (r == JustNow <==> d < 5000) &&
            (r.MinutesAgo? <==> 5000 <= d < 3600000) &&
            (r.HoursAgo? <==> 3600000 <= d < 86400000) &&
            (r.DaysAgo? <==> 86400000 <= d < 8 * 86400000) &&
            (r == OnDate <==> d >= 8 * 86400000)
    ensures var d, r := now - past, FormatRelativeTime(now, past);
            (r.MinutesAgo? ==> r.minutes == d / 60000) &&
            (r.HoursAgo? ==> r.hours == d / 3600000) &&
            (r.DaysAgo? ==> r.days == d / 86400000)
  {
    UnitSteps(now - past);
  }

  /** Flooring twice is flooring by the product, for the three unit steps. */
  lemma UnitSteps(d: int)
    ensures (d / 1000) / 60 == d / 60000
    ensures (d / 60000) / 60 == d / 3600000
    ensures (d / 3600000) / 24 == d / 86400000
  {
    NestedDiv(d, 1000, 60);
    NestedDiv(d, 60000, 60);
    NestedDiv(d, 3600000, 24);
  }

  /** Flooring by `b` and then by `c` is flooring once by `b * c`. */
  lemma NestedDiv(a: int, b: int, c: int)
    requires b > 0 && c > 0
    ensures (a / b) / c == a / (b * c)
  {
    var q, r := a / b, a % b;
    var q2, r2 := q / c, q % c;
    assert q == q2 * c + r2;
    assert a == q * b + r;
    assert a == q2 * (b * c) + (r2 * b + r) by {
      assert q * b == q2 * c * b + r2 * b;
    }
    assert r2 * b <= (c - 1) * b by {
      MulLeft(r2, c - 1, b);
    }
    DivUnique(a, b * c, q2, r2 * b + r);
  }

  /** Multiplying by a positive factor keeps the order (a step of `NestedDiv`). */
  lemma MulLeft(x: int, y: int, b: int)
    requires x <= y && b > 0
    ensures x * b <= y * b
  {
  }

  /** The quotient is the one `q` with a remainder in range. */
  lemma DivUnique(a: int, m: int, q: int, r: int)
    requires m > 0 && a == q * m + r && 0 <= r < m
    ensures a / m == q
  {
    var q', r' := a / m, a % m;
    assert (q' - q) * m == r - r';
    if q' > q {
      MulLeft(1, q' - q, m);
    } else if q' < q {
      MulLeft(1, q - q', m);
    }
  }

  /** Labels from finest to coarsest: just now, minutes, hours, days, date. */
  function Rank(r: Relative): nat
  {
    match r
    case JustNow => 0
    case MinutesAgo(_) => 1
    case HoursAgo(_) => 2
    case DaysAgo(_) => 3
    case OnDate => 4
  }

  /** An older timestamp never gets a finer label. */
  lemma FormatRelativeTimeMonotone(now: Millis, p1: Millis, p2: Millis)
    requires p2 <= p1
    ensures Rank(FormatRelativeTime(now, p1)) <= Rank(FormatRelativeTime(now, p2))
  {
    FormatRelativeTimeBuckets(now, p1);
    FormatRelativeTimeBuckets(now, p2);
  }
}

/** The task detail dialog (components/TaskDetailModal.tsx): the comment time labels
    and the comment box. */
module TaskDetail {
  import opened Wrappers
  import opened Text
  import opened Types

  /** The label kinds of the dialog's `formatRelativeTime`. */
  datatype Ago =
    | DaysAgo(days: nat)
    | OneDayAgo
    | HoursAgo(hours: nat)
    | OneHourAgo
    | MinutesAgo(minutes: nat)
    | AMinuteAgo
    | JustNow

  /** `formatRelativeTime(timestamp)` at instant `now`, both in milliseconds;
      `Math.floor` of a quotient by a positive divisor is Dafny's `/`. */
  function FormatRelativeTime(now: Millis, past: Millis): (r: Ago)
    ensures r != JustNow
  {
    var seconds := (now - past) / 1000;
    var minutes := seconds / 60;
    var hours := minutes / 60;
    var days := hours / 24;
    if days > 1 then DaysAgo(days)
    else if days == 1 then OneDayAgo
    else if hours > 1 then HoursAgo(hours)
    else if hours == 1 then OneHourAgo
    else if minutes > 1 then MinutesAgo(minutes)
    else AMinuteAgo
  }

  /** The label text: a count reads back from the digits before its unit. */
  function Render(a: Ago): (s: string)
    ensures a.DaysAgo? ==> ReadsAs(s, a.days, " days ago")
    ensures a.HoursAgo? ==> ReadsAs(s, a.hours, " hours ago")
    ensures a.MinutesAgo? ==> ReadsAs(s, a.minutes, " minutes ago")
    ensures a == OneDayAgo ==> ReadsAs(s, 1, " day ago")
    ensures a == OneHourAgo ==> ReadsAs(s, 1, " hour ago")
  {
    match a
    case DaysAgo(n) => NumberThenUnit(n, " days ago"); NatToString(n) + " days ago"
    case OneDayAgo => OneThenUnit(" day ago"); "1" + " day ago"
    case HoursAgo(n) => NumberThenUnit(n, " hours ago"); NatToString(n) + " hours ago"
    case OneHourAgo => OneThenUnit(" hour ago"); "1" + " hour ago"
    case MinutesAgo(n) => NumberThenUnit(n, " minutes ago"); NatToString(n) + " minutes ago"
    case AMinuteAgo => "a minute ago"
    case JustNow => "just now"
  }

  lemma OneThenUnit(unit: string)
    ensures ReadsAs("1" + unit, 1, unit)
  {
    assert NatToString(1) == "1";
    NumberThenUnit(1, unit);
  }

  /** The floored units of a difference of `ms` milliseconds: flooring step by step
      (seconds, then minutes, hours, days) equals flooring by the whole unit. */
  function Minutes(ms: int): (r: int)
    ensures r == ms / 60000
  {
    ms / 1000 / 60
  }

  function Hours(ms: int): (r: int)
    ensures r == ms / 3600000
  {
    Minutes(ms) / 60
  }

  function Days(ms: int): (r: int)
    ensures r == ms / 86400000
  {
    Hours(ms) / 24
  }

  /** Which label a difference gets: days from two on, one day, hours from two on,
      one hour, minutes from two on, and "a minute ago" for everything below two
      minutes, future timestamps included. */
  lemma FormatRelativeTimeBuckets(now: Millis, past: Millis)
    ensures var d := now - past; var r := FormatRelativeTime(now, past);
            (Days(d) >= 2 <==> r.DaysAgo?) && (r.DaysAgo? ==> r.days == Days(d)) &&
            (Days(d) == 1 <==> r.OneDayAgo?) &&
            (Days(d) < 1 && Hours(d) >= 2 <==> r.HoursAgo?) && (r.HoursAgo? ==> r.hours == Hours(d)) &&
            (Days(d) < 1 && Hours(d) == 1 <==> r.OneHourAgo?) &&
            (Hours(d) < 1 && Minutes(d) >= 2 <==> r.MinutesAgo?) && (r.MinutesAgo? ==> r.minutes == Minutes(d)) &&
            (Minutes(d) <= 1 <==> r.AMinuteAgo?)
  {
    var d := now - past;
    DivMonotone(d / 1000, 60, 60);
    DivMonotone(Minutes(d), 60, 24);
  }

  /** Floors of floors: a quotient of at least `k` needs a dividend of at least `k * b`,
      and a quotient below 1 means the dividend is below `b`. */
  lemma DivMonotone(a: int, b: int, c: int)
    requires b > 0 && c > 0
    ensures a / b >= 1 <==> a >= b
    ensures (a / b) / c >= 1 ==> a / b >= 1
    ensures a / b <= 1 ==> (a / b) / c <= 1
    ensures a / b < 1 ==> (a / b) / c < 1
  {
  }

  /** A timestamp in the future reads as "a minute ago". */
  lemma FutureIsAMinuteAgo(now: Millis, past: Millis)
    requires past > now
    ensures FormatRelativeTime(now, past) == AMinuteAgo
  {
    var d := now - past;
    assert d / 1000 < 0;
    assert Minutes(d) < 0;
  }

  /** The comment box. */
  class CommentBox {
    var newComment: string

    constructor ()
      ensures newComment == ""
    {
      newComment := "";
    }

    /** `handleCommentSubmit`: a comment that is not blank is posted trimmed and the
        box is cleared; a blank one posts nothing and stays. */
    method HandleCommentSubmit(taskId: Id) returns (posted: Option<(Id, string)>)
      modifies this
      ensures posted.Some? <==> !AllSpace(old(newComment))
      ensures posted.Some? ==> posted.value == (taskId, Trim(old(newComment))) && newComment == ""
      ensures posted.Some? ==> posted.value.1 != [] && !IsSpace(posted.value.1[0])
      ensures posted.None? ==> newComment == old(newComment)
    {
      BlankIffAllSpace(newComment);
      if Trim(newComment) != [] {
        posted := Some((taskId, Trim(newComment)));
        newComment := "";
      } else {
        posted := None;
      }
    }
  }
}

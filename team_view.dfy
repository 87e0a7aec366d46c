/** A member card of the team view (components/TeamView.tsx): open and overdue
    counts and the hours logged on each of the last seven days. */
module TeamView {
  import opened Seqs
  import opened Types
  import opened Queries

  function MemberTasks(tasks: seq<Task>, memberId: Id): seq<Task>
  {
    Filter(tasks, AssignedTo(memberId))
  }

  /** The member's tasks that are not done. */
  function OpenTasks(tasks: seq<Task>, memberId: Id): (r: seq<Task>)
    ensures forall t :: t in r <==> t in tasks && t.assigneeId == memberId && t.status != Done
  {
    FilterMembers(tasks, AssignedTo(memberId));
    FilterMembers(MemberTasks(tasks, memberId), IsOpen());
    Filter(MemberTasks(tasks, memberId), IsOpen())
  }

  /** The member's open tasks whose due day has passed; a sub-multiset of the open ones. */
  function OverdueTasks(tasks: seq<Task>, memberId: Id, now: Millis): (r: seq<Task>)
    ensures forall t :: t in r <==> t in tasks && t.assigneeId == memberId && t.status != Done && t.dueDate * DayMs < now
    ensures multiset(r) <= multiset(OpenTasks(tasks, memberId))
  {
    FilterMembers(OpenTasks(tasks, memberId), PastDueAt(now));
    Filter(OpenTasks(tasks, memberId), PastDueAt(now))
  }

  /** A task is open on the card iff it is the member's and not done, and overdue iff
      moreover its due date has passed; overdue tasks are among the open ones. */
  lemma MemberCardCounts(tasks: seq<Task>, memberId: Id, now: Millis, t: Task)
    ensures t in OpenTasks(tasks, memberId) <==> t in tasks && t.assigneeId == memberId && t.status != Done
    ensures t in OverdueTasks(tasks, memberId, now) <==>
              t in tasks && t.assigneeId == memberId && t.status != Done && t.dueDate * DayMs < now
    ensures multiset(OverdueTasks(tasks, memberId, now)) <= multiset(OpenTasks(tasks, memberId))
    ensures |OverdueTasks(tasks, memberId, now)| <= |OpenTasks(tasks, memberId)| <= |MemberTasks(tasks, memberId)|
  {
    FilterMembers(tasks, AssignedTo(memberId));
    FilterMembers(MemberTasks(tasks, memberId), IsOpen());
    FilterMembers(OpenTasks(tasks, memberId), PastDueAt(now));
  }

  /** One bar of the activity chart. */
  datatype DayHours = DayHours(date: Day, hours: real)

  function ByOn(memberId: Id, date: Day): Log -> bool
  {
    (l: Log) => l.userId == memberId && l.date == date
  }

  /** What the member logged on one day. */
  function HoursOn(logs: seq<Log>, memberId: Id, date: Day): real
  {
    Sum(Filter(logs, ByOn(memberId, date)), LogHours)
  }

  lemma HoursOnAppend(logs: seq<Log>, l: Log, memberId: Id, date: Day)
    ensures HoursOn(logs + [l], memberId, date) ==
            HoursOn(logs, memberId, date) + (if l.userId == memberId && l.date == date then l.hours else 0.0)
  {
    FilterConcat(logs, [l], ByOn(memberId, date));
    FilterSingleton(l, ByOn(memberId, date));
    SumConcat(Filter(logs, ByOn(memberId, date)), Filter([l], ByOn(memberId, date)), LogHours);
    assert Sum([l], LogHours) == Sum([], LogHours) + l.hours by {
      assert [l][..0] == [];
    }
  }

  /** `last7DaysActivity`: seven bars, oldest first, ending today, each holding the
      member's hours for that day; logs of other members or outside the window are
      ignored. */
  method Last7DaysActivity(logs: seq<Log>, memberId: Id, today: Day) returns (activity: seq<DayHours>)
    ensures |activity| == 7
    ensures forall k :: 0 <= k < 7 ==>
              activity[k].date == today - 6 + k && activity[k].hours == HoursOn(logs, memberId, today - 6 + k)
  {
    activity := [];
    var i := 6;
    while i >= 0
      invariant -1 <= i <= 6
      invariant |activity| == 6 - i
      invariant forall k :: 0 <= k < |activity| ==> activity[k] == DayHours(today - 6 + k, 0.0)
    {
      activity := activity + [DayHours(today - i, 0.0)];
      i := i - 1;
    }
    var n := 0;
    while n < |logs|
      invariant 0 <= n <= |logs|
      invariant |activity| == 7
      invariant forall k :: 0 <= k < 7 ==>
                  activity[k].date == today - 6 + k && activity[k].hours == HoursOn(logs[..n], memberId, today - 6 + k)
    {
      var log := logs[n];
      assert logs[..n + 1] == logs[..n] + [log];
      forall d: Day
        ensures HoursOn(logs[..n + 1], memberId, d) ==
                HoursOn(logs[..n], memberId, d) + (if log.userId == memberId && log.date == d then log.hours else 0.0)
      {
        HoursOnAppend(logs[..n], log, memberId, d);
      }
      if log.userId == memberId && today - 6 <= log.date <= today {
        var k := log.date - (today - 6);
        activity := activity[k := activity[k].(hours := activity[k].hours + log.hours)];
      }
      n := n + 1;
    }
    assert logs[..|logs|] == logs;
  }

  /** A day on which the member logged nothing reads 0. */
  lemma HoursOnNoLogs(logs: seq<Log>, memberId: Id, date: Day)
    requires forall l :: l in logs ==> l.userId != memberId || l.date != date
    ensures HoursOn(logs, memberId, date) == 0.0
  {
    FilterNone(logs, ByOn(memberId, date));
  }

  /** A day's bar is never negative when no log has negative hours. */
  lemma HoursOnNonNegative(logs: seq<Log>, memberId: Id, date: Day)
    requires forall l :: l in logs ==> l.hours >= 0.0
    ensures HoursOn(logs, memberId, date) >= 0.0
  {
    FilterMembers(logs, ByOn(memberId, date));
    SumNonNegative(Filter(logs, ByOn(memberId, date)), LogHours);
  }
}

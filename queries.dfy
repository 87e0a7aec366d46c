/** Predicates over tasks and projects shared by several views. */
module Queries {
  import opened Seqs
  import opened Types

  function OfProject(projectId: Id): Task -> bool
  {
    (t: Task) => t.projectId == projectId
  }

  function HasStatus(status: TaskStatus): Task -> bool
  {
    (t: Task) => t.status == status
  }

  /** `t.status !== TaskStatus.Done`. */
  function IsOpen(): Task -> bool
  {
    (t: Task) => t.status != Done
  }

  function AssignedTo(userId: Id): Task -> bool
  {
    (t: Task) => t.assigneeId == userId
  }

  /** `new Date(t.dueDate) < new Date()`: the due date's UTC midnight is before the instant `now`. */
  predicate PastDue(t: Task, now: Millis)
  {
    t.dueDate * DayMs < now
  }

  function PastDueAt(now: Millis): Task -> bool
  {
    (t: Task) => PastDue(t, now)
  }

  /** Open and past due, as the list views count overdue tasks. */
  function OverdueAt(now: Millis): Task -> bool
  {
    (t: Task) => PastDue(t, now) && t.status != Done
  }

  function ProjectHasStatus(status: ProjectStatus): Project -> bool
  {
    (p: Project) => p.status == status
  }

  /** `p.status !== ProjectStatus.Completed`. */
  function ProjectActive(): Project -> bool
  {
    (p: Project) => p.status != Completed
  }

  /** Open and done tasks split a list. */
  lemma OpenAndDoneSplit(s: seq<Task>)
    ensures |Filter(s, IsOpen())| + |Filter(s, HasStatus(Done))| == |s|
  {
    FilterComplement(s, HasStatus(Done), IsOpen());
  }

  /** Overdue tasks are open tasks, so there are never more of them. */
  lemma OverdueAreOpen(s: seq<Task>, now: Millis)
    ensures multiset(Filter(s, OverdueAt(now))) <= multiset(Filter(s, IsOpen()))
    ensures |Filter(s, OverdueAt(now))| <= |Filter(s, IsOpen())|
  {
    FilterMonotone(s, IsOpen(), OverdueAt(now));
  }

  /** The four status filters split any list of tasks: together they hold each task once. */
  lemma {:induction false} StatusSplit(s: seq<Task>)
    ensures multiset(Filter(s, HasStatus(ToDo))) + multiset(Filter(s, HasStatus(InProgress))) +
            multiset(Filter(s, HasStatus(Review))) + multiset(Filter(s, HasStatus(Done))) == multiset(s)
  {
    if s != [] {
      var x, t := s[0], s[1..];
      StatusSplit(t);
      assert s == [x] + t;
      var fa, fb, fc, fd := Filter(s, HasStatus(ToDo)), Filter(s, HasStatus(InProgress)),
                            Filter(s, HasStatus(Review)), Filter(s, HasStatus(Done));
      var a, b, c, d := Filter(t, HasStatus(ToDo)), Filter(t, HasStatus(InProgress)),
                        Filter(t, HasStatus(Review)), Filter(t, HasStatus(Done));
      assert fa == (if x.status == ToDo then [x] else []) + a by { FilterCons(x, t, HasStatus(ToDo)); }
      assert fb == (if x.status == InProgress then [x] else []) + b by { FilterCons(x, t, HasStatus(InProgress)); }
      assert fc == (if x.status == Review then [x] else []) + c by { FilterCons(x, t, HasStatus(Review)); }
      assert fd == (if x.status == Done then [x] else []) + d by { FilterCons(x, t, HasStatus(Done)); }
      Add4(x, a, b, c, d, t, fa, fb, fc, fd);
    }
  }

  /** The arithmetic step of `StatusSplit`: `x` joins exactly the part of its own status. */
  lemma Add4(x: Task, a: seq<Task>, b: seq<Task>, c: seq<Task>, d: seq<Task>, t: seq<Task>,
             fa: seq<Task>, fb: seq<Task>, fc: seq<Task>, fd: seq<Task>)
    requires multiset(a) + multiset(b) + multiset(c) + multiset(d) == multiset(t)
    requires fa == (if x.status == ToDo then [x] else []) + a
    requires fb == (if x.status == InProgress then [x] else []) + b
    requires fc == (if x.status == Review then [x] else []) + c
    requires fd == (if x.status == Done then [x] else []) + d
    ensures multiset(fa) + multiset(fb) + multiset(fc) + multiset(fd) == multiset([x] + t)
  {
    assert multiset([x] + t) == multiset{x} + multiset(t);
    match x.status
    case ToDo => assert multiset(fa) == multiset{x} + multiset(a);
    case InProgress => assert multiset(fb) == multiset{x} + multiset(b);
    case Review => assert multiset(fc) == multiset{x} + multiset(c);
    case Done => assert multiset(fd) == multiset{x} + multiset(d);
  }

}

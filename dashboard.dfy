/** The dashboard (components/Dashboard.tsx): portfolio counts, the user's projects,
    the next five open tasks and the hours logged per project. */
module Dashboard {
  import opened Seqs
  import opened Types
  import opened Queries

  /** The four counters at the top. */
  datatype ProjectCounts = ProjectCounts(total: nat, completed: nat, onTrack: nat, atRisk: nat)

  /** The counters: all projects, then the completed, on-track and at-risk ones, which
      are disjoint and so never more than all together. */
  function Counts(projects: seq<Project>): (r: ProjectCounts)
    ensures r.total == |projects| && r.completed + r.onTrack + r.atRisk <= r.total
  {
    CountsBounded(projects);
    ProjectCounts(|projects|, |Filter(projects, ProjectHasStatus(Completed))|,
                  |Filter(projects, ProjectHasStatus(OnTrack))|, |Filter(projects, ProjectHasStatus(AtRisk))|)
  }

  /** Completed, on-track and at-risk projects are disjoint, so together never more than all. */
  lemma {:induction false} CountsBounded(projects: seq<Project>)
    ensures |Filter(projects, ProjectHasStatus(Completed))| + |Filter(projects, ProjectHasStatus(OnTrack))| +
            |Filter(projects, ProjectHasStatus(AtRisk))| <= |projects|
  {
    if projects != [] {
      var x, rest := projects[0], projects[1..];
      CountsBounded(rest);
      assert projects == [x] + rest;
      FilterCons(x, rest, ProjectHasStatus(Completed));
      FilterCons(x, rest, ProjectHasStatus(OnTrack));
      FilterCons(x, rest, ProjectHasStatus(AtRisk));
    }
  }

  function HasMember(userId: Id): Project -> bool
  {
    (p: Project) => userId in p.team
  }

  /** The projects whose team includes the user, in project order. */
  function UserProjects(projects: seq<Project>, userId: Id): (r: seq<Project>)
    ensures forall p :: p in r <==> p in projects && userId in p.team
    ensures Subseq(r, projects)
  {
    FilterMembers(projects, HasMember(userId));
    FilterSubseq(projects, HasMember(userId));
    Filter(projects, HasMember(userId))
  }

  function OpenFor(userId: Id): Task -> bool
  {
    (t: Task) => t.assigneeId == userId && t.status != Done
  }

  /** All of the user's open tasks, earliest due first (ties keep board order). */
  function OpenByDue(tasks: seq<Task>, userId: Id): (r: seq<Task>)
    ensures SortedBy(r, DueKey)
    ensures multiset(r) == multiset(Filter(tasks, OpenFor(userId)))
  {
    SortBy(Filter(tasks, OpenFor(userId)), DueKey)
  }

  /** `upcomingTasks`. */
  function UpcomingTasks(tasks: seq<Task>, userId: Id): (r: seq<Task>)
    ensures r <= OpenByDue(tasks, userId)
    ensures |r| == if |Filter(tasks, OpenFor(userId))| < 5 then |Filter(tasks, OpenFor(userId))| else 5
  {
    var all := OpenByDue(tasks, userId);
    assert |all| == |Filter(tasks, OpenFor(userId))| by {
      assert |multiset(all)| == |multiset(Filter(tasks, OpenFor(userId)))|;
    }
    Take(all, 5)
  }

  /** At most five tasks, a prefix of the user's open tasks by due date, and all of
      them when there are fewer than five. */
  lemma UpcomingTasksPrefix(tasks: seq<Task>, userId: Id)
    ensures |UpcomingTasks(tasks, userId)| <= 5
    ensures UpcomingTasks(tasks, userId) <= OpenByDue(tasks, userId)
    ensures |Filter(tasks, OpenFor(userId))| < 5 ==> UpcomingTasks(tasks, userId) == OpenByDue(tasks, userId)
  {
    var all := OpenByDue(tasks, userId);
    assert |all| == |Filter(tasks, OpenFor(userId))| by {
      assert |multiset(all)| == |multiset(Filter(tasks, OpenFor(userId)))|;
    }
  }

  /** Every upcoming task is assigned to the user and not done. */
  lemma UpcomingTasksMineAndOpen(tasks: seq<Task>, userId: Id)
    ensures forall t :: t in UpcomingTasks(tasks, userId) ==> t.assigneeId == userId && t.status != Done
  {
    var all := OpenByDue(tasks, userId);
    FilterMembers(tasks, OpenFor(userId));
    forall t | t in UpcomingTasks(tasks, userId)
      ensures t.assigneeId == userId && t.status != Done
    {
      assert t in all;
      assert t in multiset(all);
      assert OpenFor(userId)(t);
    }
  }

  /** The upcoming tasks are in due-date order and none is due later than any open
      task of the user left off the list. */
  lemma UpcomingTasksEarliest(tasks: seq<Task>, userId: Id)
    ensures var r := UpcomingTasks(tasks, userId);
            forall i, j :: 0 <= i < j < |r| ==> r[i].dueDate <= r[j].dueDate
    ensures var r, all := UpcomingTasks(tasks, userId), OpenByDue(tasks, userId);
            forall i, j :: 0 <= i < |r| <= j < |all| ==> r[i].dueDate <= all[j].dueDate
  {
    var all := OpenByDue(tasks, userId);
    var r := UpcomingTasks(tasks, userId);
    forall i, j | 0 <= i < j < |all|
      ensures all[i].dueDate <= all[j].dueDate
    {
      assert DueKey(all[i]) <= DueKey(all[j]);
    }
    assert forall i :: 0 <= i < |r| ==> r[i] == all[i];
  }

  /** The hours bar of one project. */
  datatype ProjectHours = ProjectHours(name: string, hours: real)

  function OfProjectLog(projectId: Id): Log -> bool
  {
    (l: Log) => l.projectId == projectId
  }

  /** The total of the project's logged hours. */
  function HoursOf(logs: seq<Log>, projectId: Id): (r: real)
    ensures (forall l :: l in logs ==> l.projectId != projectId) ==> r == 0.0
  {
    var own := Filter(logs, OfProjectLog(projectId));
    FilterMembers(logs, OfProjectLog(projectId));
    assert own != [] ==> own[0] in own;
    Sum(own, LogHours)
  }

  function ProjectHoursData(projects: seq<Project>, logs: seq<Log>): (r: seq<ProjectHours>)
    ensures |r| == |projects|
    ensures forall i :: 0 <= i < |r| ==> r[i].name == projects[i].name && r[i].hours == HoursOf(logs, projects[i].id)
  {
    seq(|projects|, i requires 0 <= i < |projects| => ProjectHours(projects[i].name, HoursOf(logs, projects[i].id)))
  }

  /** A project's hours grow by exactly a new log's hours when the log is for that
      project and are untouched by logs for other projects; with no logs they are 0. */
  lemma HoursOfAppend(logs: seq<Log>, l: Log, projectId: Id)
    ensures HoursOf([], projectId) == 0.0
    ensures HoursOf(logs + [l], projectId) == HoursOf(logs, projectId) + (if l.projectId == projectId then l.hours else 0.0)
  {
    var p := OfProjectLog(projectId);
    var f, g := Filter(logs, p), Filter([l], p);
    FilterConcat(logs, [l], p);
    SumConcat(f, g, LogHours);
    FilterSingleton(l, p);
    if p(l) {
      assert Sum(g, LogHours) == l.hours by {
        assert g == [l];
        assert g[..0] == [];
      }
    } else {
      assert g == [];
    }
  }

  /** Hours are never negative when no log has negative hours. */
  lemma HoursOfNonNegative(logs: seq<Log>, projectId: Id)
    requires forall l :: l in logs ==> l.hours >= 0.0
    ensures HoursOf(logs, projectId) >= 0.0
  {
    FilterMembers(logs, OfProjectLog(projectId));
    SumNonNegative(Filter(logs, OfProjectLog(projectId)), LogHours);
  }
}

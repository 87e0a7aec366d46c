/** The reporting page (components/ReportingView.tsx): project-status pie data,
    per-project task counts, team workload and the four headline statistics. */
module Reporting {
  import opened Wrappers
  import opened Seqs
  import opened Types
  import opened Queries

  // ---------------------------------------------------------------------
  // projectStatusData
  // ---------------------------------------------------------------------

  /** One slice of the status pie. */
  datatype StatusCount = StatusCount(name: ProjectStatus, value: nat)

  /** `acc[status] = (acc[status] || 0) + 1` on an insertion-ordered record. */
  function Bump(acc: seq<StatusCount>, status: ProjectStatus): (r: seq<StatusCount>)
    ensures |r| == |acc| || |r| == |acc| + 1
  {
    if acc == [] then [StatusCount(status, 1)]
    else if acc[0].name == status then [acc[0].(value := acc[0].value + 1)] + acc[1..]
    else [acc[0]] + Bump(acc[1..], status)
  }

  /** The `reduce` over the projects, continuing from `acc`. */
  function CountFrom(projects: seq<Project>, acc: seq<StatusCount>): seq<StatusCount>
    decreases |projects|
  {
    if projects == [] then acc else CountFrom(projects[1..], Bump(acc, projects[0].status))
  }

  /** `Object.entries(statusCounts)`: statuses in order of first occurrence, with their counts. */
  function ProjectStatusData(projects: seq<Project>): (r: seq<StatusCount>)
    ensures DistinctNames(r) && AllPositive(r)
    ensures Total(r) == |projects|
  {
    CountFromShape(projects, []);
    CountFromTotal(projects, []);
    CountFrom(projects, [])
  }

  /** The count recorded for `status` (0 when it has no entry). */
  function ValueOf(acc: seq<StatusCount>, status: ProjectStatus): nat
  {
    if acc == [] then 0 else (if acc[0].name == status then acc[0].value else 0) + ValueOf(acc[1..], status)
  }

  /** The sum of all recorded counts. */
  function Total(acc: seq<StatusCount>): nat
  {
    if acc == [] then 0 else acc[0].value + Total(acc[1..])
  }

  /** The statuses that have an entry. */
  function Names(acc: seq<StatusCount>): set<ProjectStatus>
  {
    if acc == [] then {} else {acc[0].name} + Names(acc[1..])
  }

  /** No status has two entries. */
  predicate DistinctNames(acc: seq<StatusCount>)
  {
    acc != [] ==> acc[0].name !in Names(acc[1..]) && DistinctNames(acc[1..])
  }

  predicate AllPositive(acc: seq<StatusCount>)
  {
    forall i :: 0 <= i < |acc| ==> acc[i].value > 0
  }

  /** One bump adds one to the count of `status` and leaves every other count alone. */
  lemma {:induction false} BumpValue(acc: seq<StatusCount>, status: ProjectStatus, t: ProjectStatus)
    ensures ValueOf(Bump(acc, status), t) == ValueOf(acc, t) + (if t == status then 1 else 0)
  {
    if acc != [] && acc[0].name != status {
      BumpValue(acc[1..], status, t);
      assert Bump(acc, status)[1..] == Bump(acc[1..], status);
    } else if acc != [] {
      assert Bump(acc, status)[1..] == acc[1..];
    }
  }

  /** One bump adds one to the total. */
  lemma {:induction false} BumpTotal(acc: seq<StatusCount>, status: ProjectStatus)
    ensures Total(Bump(acc, status)) == Total(acc) + 1
  {
    if acc != [] && acc[0].name != status {
      BumpTotal(acc[1..], status);
      assert Bump(acc, status)[1..] == Bump(acc[1..], status);
    } else if acc != [] {
      assert Bump(acc, status)[1..] == acc[1..];
    }
  }

  /** After a bump, the statuses with an entry are the old ones and `status`. */
  lemma {:induction false} BumpNames(acc: seq<StatusCount>, status: ProjectStatus)
    ensures Names(Bump(acc, status)) == Names(acc) + {status}
  {
    if acc != [] && acc[0].name != status {
      BumpNames(acc[1..], status);
      assert Bump(acc, status)[1..] == Bump(acc[1..], status);
    } else if acc != [] {
      assert Bump(acc, status)[1..] == acc[1..];
    }
  }

  /** A bump keeps the entries' statuses distinct and their counts positive. */
  lemma {:induction false} BumpKeepsShape(acc: seq<StatusCount>, status: ProjectStatus)
    requires DistinctNames(acc) && AllPositive(acc)
    ensures DistinctNames(Bump(acc, status)) && AllPositive(Bump(acc, status))
  {
    var r := Bump(acc, status);
    if acc != [] && acc[0].name != status {
      var tail := acc[1..];
      assert AllPositive(tail) by {
        assert forall i :: 0 <= i < |tail| ==> tail[i] == acc[i + 1];
      }
      BumpKeepsShape(tail, status);
      BumpNames(tail, status);
      assert r[1..] == Bump(tail, status);
      assert forall i :: 0 < i < |r| ==> r[i] == Bump(tail, status)[i - 1];
    } else if acc != [] {
      assert r[1..] == acc[1..];
      assert forall i :: 0 < i < |r| ==> r[i] == acc[i];
    }
  }

  /** The fold keeps the entries' statuses distinct and their counts positive. */
  lemma {:induction false} CountFromShape(projects: seq<Project>, acc: seq<StatusCount>)
    requires DistinctNames(acc) && AllPositive(acc)
    ensures DistinctNames(CountFrom(projects, acc)) && AllPositive(CountFrom(projects, acc))
    decreases |projects|
  {
    if projects != [] {
      BumpKeepsShape(acc, projects[0].status);
      CountFromShape(projects[1..], Bump(acc, projects[0].status));
    }
  }

  /** The fold adds the number of projects in status `t` to its count. */
  lemma {:induction false} CountFromValue(projects: seq<Project>, acc: seq<StatusCount>, t: ProjectStatus)
    ensures ValueOf(CountFrom(projects, acc), t) == ValueOf(acc, t) + |Filter(projects, ProjectHasStatus(t))|
    decreases |projects|
  {
    if projects != [] {
      var x := projects[0];
      BumpValue(acc, x.status, t);
      CountFromValue(projects[1..], Bump(acc, x.status), t);
      assert projects == [x] + projects[1..];
      FilterCons(x, projects[1..], ProjectHasStatus(t));
    }
  }

  /** The fold adds one to the total per project. */
  lemma {:induction false} CountFromTotal(projects: seq<Project>, acc: seq<StatusCount>)
    ensures Total(CountFrom(projects, acc)) == Total(acc) + |projects|
    decreases |projects|
  {
    if projects != [] {
      BumpTotal(acc, projects[0].status);
      CountFromTotal(projects[1..], Bump(acc, projects[0].status));
    }
  }

  /** The fold gives an entry to every status that occurs, and to no other new one. */
  lemma {:induction false} CountFromNames(projects: seq<Project>, acc: seq<StatusCount>, t: ProjectStatus)
    ensures t in Names(CountFrom(projects, acc)) <==> t in Names(acc) || |Filter(projects, ProjectHasStatus(t))| > 0
    decreases |projects|
  {
    if projects != [] {
      var x := projects[0];
      BumpNames(acc, x.status);
      CountFromNames(projects[1..], Bump(acc, x.status), t);
      assert projects == [x] + projects[1..];
      FilterCons(x, projects[1..], ProjectHasStatus(t));
    }
  }

  /** The value recorded for a status is also the value of its (unique) entry. */
  lemma {:induction false} ValueOfEntry(acc: seq<StatusCount>, i: nat)
    requires DistinctNames(acc) && i < |acc|
    ensures ValueOf(acc, acc[i].name) == acc[i].value
  {
    if i > 0 {
      ValueOfEntry(acc[1..], i - 1);
      NamesHas(acc[1..], i - 1);
    } else {
      ValueOfAbsent(acc[1..], acc[0].name);
    }
  }

  lemma {:induction false} NamesHas(acc: seq<StatusCount>, i: nat)
    requires i < |acc|
    ensures acc[i].name in Names(acc)
  {
    if i > 0 {
      NamesHas(acc[1..], i - 1);
    }
  }

  lemma {:induction false} ValueOfAbsent(acc: seq<StatusCount>, t: ProjectStatus)
    requires t !in Names(acc)
    ensures ValueOf(acc, t) == 0
  {
    if acc != [] {
      ValueOfAbsent(acc[1..], t);
    }
  }

  /** One pie slice per status that occurs, each with the number of projects in that
      status (so positive), the slices summing to the number of projects. */
  lemma ProjectStatusDataCounts(projects: seq<Project>, t: ProjectStatus)
    ensures DistinctNames(ProjectStatusData(projects)) && AllPositive(ProjectStatusData(projects))
    ensures t in Names(ProjectStatusData(projects)) <==> |Filter(projects, ProjectHasStatus(t))| > 0
    ensures forall i :: 0 <= i < |ProjectStatusData(projects)| && ProjectStatusData(projects)[i].name == t ==>
              ProjectStatusData(projects)[i].value == |Filter(projects, ProjectHasStatus(t))|
    ensures Total(ProjectStatusData(projects)) == |projects|
  {
    CountFromShape(projects, []);
    CountFromValue(projects, [], t);
    CountFromTotal(projects, []);
    CountFromNames(projects, [], t);
    var r := ProjectStatusData(projects);
    forall i | 0 <= i < |r| && r[i].name == t
      ensures r[i].value == |Filter(projects, ProjectHasStatus(t))|
    {
      ValueOfEntry(r, i);
    }
  }

  // ---------------------------------------------------------------------
  // tasksByProjectData
  // ---------------------------------------------------------------------

  /** The bar of one project: the number of its tasks in each status. */
  datatype ProjectBar = ProjectBar(name: string, toDo: nat, inProgress: nat, review: nat, done: nat)

  function CountIn(tasks: seq<Task>, projectId: Id, status: TaskStatus): nat
  {
    |Filter(Filter(tasks, OfProject(projectId)), HasStatus(status))|
  }

  function TasksByProjectData(projects: seq<Project>, tasks: seq<Task>): (r: seq<ProjectBar>)
    ensures |r| == |projects|
    ensures forall i :: 0 <= i < |r| ==> r[i].name == projects[i].name
    ensures forall i :: 0 <= i < |r| ==>
              r[i].toDo == CountIn(tasks, projects[i].id, ToDo) &&
              r[i].inProgress == CountIn(tasks, projects[i].id, InProgress) &&
              r[i].review == CountIn(tasks, projects[i].id, Review) &&
              r[i].done == CountIn(tasks, projects[i].id, Done)
  {
    seq(|projects|, i requires 0 <= i < |projects| =>
      ProjectBar(projects[i].name,
                 CountIn(tasks, projects[i].id, ToDo), CountIn(tasks, projects[i].id, InProgress),
                 CountIn(tasks, projects[i].id, Review), CountIn(tasks, projects[i].id, Done)))
  }

  /** Each project's four counts add up to the number of its tasks; a status none of
      its tasks has counts 0. */
  lemma TasksByProjectSums(projects: seq<Project>, tasks: seq<Task>, i: nat, st: TaskStatus)
    requires i < |projects|
    ensures var b := TasksByProjectData(projects, tasks)[i];
            b.toDo + b.inProgress + b.review + b.done == |Filter(tasks, OfProject(projects[i].id))|
    ensures (forall t :: t in tasks && t.projectId == projects[i].id ==> t.status != st) ==>
              CountIn(tasks, projects[i].id, st) == 0
  {
    var pt := Filter(tasks, OfProject(projects[i].id));
    StatusSplit(pt);
    var a, b, c, d := Filter(pt, HasStatus(ToDo)), Filter(pt, HasStatus(InProgress)),
                      Filter(pt, HasStatus(Review)), Filter(pt, HasStatus(Done));
    assert |multiset(a) + multiset(b) + multiset(c) + multiset(d)| == |a| + |b| + |c| + |d|;
    if forall t :: t in tasks && t.projectId == projects[i].id ==> t.status != st {
      FilterMembers(tasks, OfProject(projects[i].id));
      FilterNone(pt, HasStatus(st));
    }
  }

  // ---------------------------------------------------------------------
  // teamWorkloadData
  // ---------------------------------------------------------------------

  datatype Workload = Workload(name: string, openTasks: nat, id: Id)

  function WorkloadOf(user: User, tasks: seq<Task>): Workload
  {
    Workload(user.name, |Filter(Filter(tasks, AssignedTo(user.id)), IsOpen())|, user.id)
  }

  /** `b.openTasks - a.openTasks`: descending by open tasks. */
  function LoadKey(w: Workload): real
  {
    -(w.openTasks as real)
  }

  /** `userTaskCounts`: one entry per user, in user order. */
  function Workloads(users: seq<User>, tasks: seq<Task>): (r: seq<Workload>)
    ensures |r| == |users|
    ensures forall i :: 0 <= i < |users| ==> r[i] == WorkloadOf(users[i], tasks)
  {
    seq(|users|, i requires 0 <= i < |users| => WorkloadOf(users[i], tasks))
  }

  /** `userTaskCounts.sort(...)`: the users' workloads, most open tasks first. */
  function TeamWorkloadData(users: seq<User>, tasks: seq<Task>): (r: seq<Workload>)
    ensures |r| == |users| && multiset(r) == multiset(Workloads(users, tasks))
    ensures forall i, j :: 0 <= i < j < |r| ==> r[i].openTasks >= r[j].openTasks
  {
    var r := SortBy(Workloads(users, tasks), LoadKey);
    assert forall i, j :: 0 <= i < j < |r| ==> LoadKey(r[i]) <= LoadKey(r[j]);
    r
  }

  /** One entry per user with that user's open-task count, in non-increasing order. */
  lemma TeamWorkloadSorted(users: seq<User>, tasks: seq<Task>)
    ensures |TeamWorkloadData(users, tasks)| == |users|
    ensures multiset(TeamWorkloadData(users, tasks)) == multiset(Workloads(users, tasks))
    ensures forall i, j :: 0 <= i < j < |TeamWorkloadData(users, tasks)| ==>
              TeamWorkloadData(users, tasks)[i].openTasks >= TeamWorkloadData(users, tasks)[j].openTasks
  {
    var r := TeamWorkloadData(users, tasks);
    forall i, j | 0 <= i < j < |r|
      ensures r[i].openTasks >= r[j].openTasks
    {
      assert LoadKey(r[i]) <= LoadKey(r[j]);
    }
  }

  /** Users with the same number of open tasks stay in user order. */
  lemma TeamWorkloadStable(users: seq<User>, tasks: seq<Task>, k: real)
    ensures Filter(TeamWorkloadData(users, tasks), HasKey(LoadKey, k)) == Filter(Workloads(users, tasks), HasKey(LoadKey, k))
  {
    SortByStable(Workloads(users, tasks), LoadKey, k);
  }

  /** Each entry is some user's own workload. */
  lemma TeamWorkloadEntries(users: seq<User>, tasks: seq<Task>, w: Workload)
    ensures w in TeamWorkloadData(users, tasks) <==> exists i :: 0 <= i < |users| && w == WorkloadOf(users[i], tasks)
  {
    var base := Workloads(users, tasks);
    var r := TeamWorkloadData(users, tasks);
    assert multiset(r) == multiset(base);
    assert (w in r) == (w in multiset(r));
    assert (w in base) == (w in multiset(base));
    if w in base {
      var i :| 0 <= i < |base| && base[i] == w;
      assert w == WorkloadOf(users[i], tasks);
    }
  }

  // ---------------------------------------------------------------------
  // selectedUser and displayedStats
  // ---------------------------------------------------------------------

  /** `users.find(u => u.id === id)`. */
  function FindUser(users: seq<User>, id: Id): (r: Option<User>)
    ensures r.Some? ==> r.value in users && r.value.id == id
    ensures r.None? ==> forall u :: u in users ==> u.id != id
    ensures r.Some? ==> exists i :: 0 <= i < |users| && users[i] == r.value &&
                          forall j :: 0 <= j < i ==> users[j].id != id
  {
    if users == [] then None
    else if users[0].id == id then Some(users[0])
    else
      var rest := FindUser(users[1..], id);
      assert forall k :: 0 <= k < |users| - 1 ==> users[1..][k] == users[k + 1];
      rest
  }

  /** The user picked in the drop-down: none for "all" and for an id no user has. */
  function SelectedUser(users: seq<User>, selectedUserId: string): (r: Option<User>)
    ensures selectedUserId == "all" ==> r.None?
    ensures selectedUserId != "all" ==> r == FindUser(users, selectedUserId)
  {
    if selectedUserId == "all" then None else FindUser(users, selectedUserId)
  }

  /** The four cards: for one user, or for the whole portfolio. */
  datatype Stats =
    | UserStats(activeProjects: nat, openTasks: nat, overdueTasks: nat, completedTasks: nat)
    | OverviewStats(totalProjects: nat, activeProjects: nat, totalOpenTasks: nat, overdueTasks: nat)

  function InIds(ids: set<Id>): Project -> bool
  {
    (p: Project) => p.id in ids && p.status != Completed
  }

  /** A task of `userId` that is not done. */
  function OpenOf(userId: Id): Task -> bool
  {
    (t: Task) => t.assigneeId == userId && t.status != Done
  }

  /** A task of `userId` that is open and past due. */
  function OverdueOf(userId: Id, now: Millis): Task -> bool
  {
    (t: Task) => t.assigneeId == userId && PastDue(t, now) && t.status != Done
  }

  /** A task of `userId` that is done. */
  function DoneOf(userId: Id): Task -> bool
  {
    (t: Task) => t.assigneeId == userId && t.status == Done
  }

  /** A project that is not completed and holds some task assigned to `userId`. */
  function ActiveWorkedOn(tasks: seq<Task>, userId: Id): Project -> bool
  {
    (p: Project) => p.status != Completed && exists t :: t in tasks && t.assigneeId == userId && t.projectId == p.id
  }

  /** The four cards. For a user: the non-completed projects they have a task in,
      and their open, overdue and done tasks. For the overview: all projects, the
      non-completed ones, and the open and overdue tasks of everybody. */
  function DisplayedStats(projects: seq<Project>, tasks: seq<Task>, selected: Option<User>, now: Millis): (r: Stats)
    ensures selected.Some? ==>
              (r.UserStats? &&
               r.activeProjects == |Filter(projects, ActiveWorkedOn(tasks, selected.value.id))| &&
               r.openTasks == |Filter(tasks, OpenOf(selected.value.id))| &&
               r.overdueTasks == |Filter(tasks, OverdueOf(selected.value.id, now))| &&
               r.completedTasks == |Filter(tasks, DoneOf(selected.value.id))|)
    ensures selected.None? ==>
              (r.OverviewStats? &&
               r.totalProjects == |projects| &&
               r.activeProjects == |Filter(projects, ProjectActive())| &&
               r.totalOpenTasks == |Filter(tasks, IsOpen())| &&
               r.overdueTasks == |Filter(tasks, OverdueAt(now))|)
  {
    match selected
    case Some(u) =>
      var userTasks := Filter(tasks, AssignedTo(u.id));
      var projectIds := set t | t in userTasks :: t.projectId;
      FilterFused(tasks, AssignedTo(u.id), IsOpen(), OpenOf(u.id));
      FilterFused(tasks, AssignedTo(u.id), OverdueAt(now), OverdueOf(u.id, now));
      FilterFused(tasks, AssignedTo(u.id), HasStatus(Done), DoneOf(u.id));
      UserProjectIds(projects, tasks, u.id);
      UserStats(|Filter(projects, InIds(projectIds))|,
                |Filter(userTasks, IsOpen())|,
                |Filter(userTasks, OverdueAt(now))|,
                |Filter(userTasks, HasStatus(Done))|)
    case None =>
      OverviewStats(|projects|, |Filter(projects, ProjectActive())|,
                    |Filter(tasks, IsOpen())|, |Filter(tasks, OverdueAt(now))|)
  }

  /** The `Set` of the user's project ids picks out the non-completed projects the
      user has a task in. */
  lemma UserProjectIds(projects: seq<Project>, tasks: seq<Task>, userId: Id)
    ensures Filter(projects, InIds(set t | t in Filter(tasks, AssignedTo(userId)) :: t.projectId))
         == Filter(projects, ActiveWorkedOn(tasks, userId))
  {
    var userTasks := Filter(tasks, AssignedTo(userId));
    var ids := set t | t in userTasks :: t.projectId;
    FilterMembers(tasks, AssignedTo(userId));
    forall p | p in projects
      ensures InIds(ids)(p) == ActiveWorkedOn(tasks, userId)(p)
    {
      if p.id in ids {
        var t :| t in userTasks && t.projectId == p.id;
        assert t in tasks && t.assigneeId == userId;
      }
    }
    FilterCongruent(projects, InIds(ids), ActiveWorkedOn(tasks, userId));
  }

  /** For a user, open and completed tasks add up to the tasks assigned to them, and
      overdue ones are among the open ones; their active projects are projects they
      have a task in. */
  lemma UserStatsAddUp(projects: seq<Project>, tasks: seq<Task>, u: User, now: Millis)
    ensures var s := DisplayedStats(projects, tasks, Some(u), now);
            s.openTasks + s.completedTasks == |Filter(tasks, AssignedTo(u.id))| &&
            s.overdueTasks <= s.openTasks &&
            s.activeProjects <= |Filter(projects, ProjectActive())|
  {
    var userTasks := Filter(tasks, AssignedTo(u.id));
    OpenAndDoneSplit(userTasks);
    OverdueAreOpen(userTasks, now);
    var projectIds := set t | t in userTasks :: t.projectId;
    FilterMonotone(projects, ProjectActive(), InIds(projectIds));
  }

  /** The overview: active projects are the non-completed ones, no more than all
      projects, and overdue tasks are among the open ones. */
  lemma OverviewStatsBounds(projects: seq<Project>, tasks: seq<Task>, now: Millis)
    ensures var s := DisplayedStats(projects, tasks, None, now);
            s.totalProjects == |projects| &&
            s.activeProjects + |Filter(projects, ProjectHasStatus(Completed))| == |projects| &&
            s.overdueTasks <= s.totalOpenTasks <= |tasks|
  {
    FilterComplement(projects, ProjectHasStatus(Completed), ProjectActive());
    OverdueAreOpen(tasks, now);
  }

  /** "All", and an id that names no user, both show the overview. */
  lemma UnknownUserShowsOverview(projects: seq<Project>, tasks: seq<Task>, users: seq<User>, id: string, now: Millis)
    requires id == "all" || forall u :: u in users ==> u.id != id
    ensures DisplayedStats(projects, tasks, SelectedUser(users, id), now).OverviewStats?
  {
  }
}

/** The "My Tasks" view (components/MyTasksView.tsx): the signed-in user's tasks,
    filtered by project, status and due date, earliest due first. */
module MyTasks {
  import opened Wrappers
  import opened Seqs
  import opened Types
  import opened Queries
  import ProjectDetail

  /** `formatTaskStatus`: the label a status is shown with. */
  function FormatTaskStatus(s: TaskStatus): (r: string)
    ensures r != []
    ensures s == Review || s == Done <==> r == StatusValue(s)
  {
    match s
    case ToDo => "To Do"
    case InProgress => "In Progress"
    case Review => "Review"
    case Done => "Done"
  }

  /** Different statuses get different labels, so the status menu has no duplicates. */
  lemma FormatTaskStatusInjective(s: TaskStatus, t: TaskStatus)
    ensures FormatTaskStatus(s) == FormatTaskStatus(t) <==> s == t
  {
  }

  /** The filter row over the task table, with `selectedDueDate == None` for the
      empty date input. */
  class Filters {
    var selectedProject: string
    var selectedStatus: string
    var selectedDueDate: Option<Day>

    constructor ()
      ensures selectedProject == "all" && selectedStatus == "all" && selectedDueDate == None
      ensures !Active()
    {
      selectedProject := "all";
      selectedStatus := "all";
      selectedDueDate := None;
    }

    /** `filtersAreActive`: some filter differs from its default. */
    predicate Active()
      reads this
    {
      selectedProject != "all" || selectedStatus != "all" || selectedDueDate != None
    }

    /** `handleClearFilters`. */
    method Clear()
      modifies this
      ensures selectedProject == "all" && selectedStatus == "all" && selectedDueDate == None
      ensures !Active()
    {
      selectedProject := "all";
      selectedStatus := "all";
      selectedDueDate := None;
    }

    method SetProject(value: string)
      modifies this
      ensures selectedProject == value
      ensures selectedStatus == old(selectedStatus) && selectedDueDate == old(selectedDueDate)
      ensures Active() <==> value != "all" || selectedStatus != "all" || selectedDueDate != None
    {
      selectedProject := value;
    }

    method SetStatus(value: string)
      modifies this
      ensures selectedStatus == value
      ensures selectedProject == old(selectedProject) && selectedDueDate == old(selectedDueDate)
    {
      selectedStatus := value;
    }

    method SetDueDate(value: Option<Day>)
      modifies this
      ensures selectedDueDate == value
      ensures selectedProject == old(selectedProject) && selectedStatus == old(selectedStatus)
    {
      selectedDueDate := value;
    }

    /** The table rows under the current filters. */
    function Rows(tasks: seq<Task>, me: Id): (r: seq<Task>)
      reads this
      ensures SortedBy(r, DueKey)
    {
      MyTaskRows(tasks, me, selectedProject, selectedStatus, selectedDueDate)
    }

    /** While no filter is active the table holds exactly my tasks. */
    lemma InactiveShowsAllMine(tasks: seq<Task>, me: Id)
      requires !Active()
      ensures multiset(Rows(tasks, me)) == multiset(Filter(tasks, AssignedTo(me)))
    {
      DefaultFiltersShowAllMine(tasks, me);
    }
  }

  /** The row test: assigned to me, and matching each filter that is set. */
  function Matches(me: Id, project: string, status: string, due: Option<Day>): Task -> bool
  {
    (t: Task) =>
      t.assigneeId == me &&
      (project == "all" || t.projectId == project) &&
      (status == "all" || StatusValue(t.status) == status) &&
      (due.None? || t.dueDate == due.value)
  }

  /** `myTasks`. */
  function MyTaskRows(tasks: seq<Task>, me: Id, project: string, status: string, due: Option<Day>): (r: seq<Task>)
    ensures SortedBy(r, DueKey)
    ensures multiset(r) == multiset(Filter(tasks, Matches(me, project, status, due)))
  {
    SortBy(Filter(tasks, Matches(me, project, status, due)), DueKey)
  }

  /** A task is listed iff it is mine and passes every set filter; a status filter
      selects exactly the tasks of the status whose value it holds. */
  lemma MyTaskRowsExact(tasks: seq<Task>, me: Id, project: string, status: string, due: Option<Day>, t: Task)
    ensures t in MyTaskRows(tasks, me, project, status, due) <==>
              t in tasks && t.assigneeId == me &&
              (project == "all" || t.projectId == project) &&
              (status == "all" || StatusValue(t.status) == status) &&
              (due.None? || t.dueDate == due.value)
  {
    FilterMembers(tasks, Matches(me, project, status, due));
    assert t in MyTaskRows(tasks, me, project, status, due) <==> t in multiset(MyTaskRows(tasks, me, project, status, due));
  }

  /** Filtering by a status's value keeps exactly the tasks with that status. */
  lemma StatusFilterExact(tasks: seq<Task>, me: Id, s: TaskStatus, t: Task)
    ensures t in MyTaskRows(tasks, me, "all", StatusValue(s), None) <==>
              t in tasks && t.assigneeId == me && t.status == s
  {
    MyTaskRowsExact(tasks, me, "all", StatusValue(s), None, t);
    StatusValueInjective(t.status, s);
  }

  /** With every filter at its default the table holds all of my tasks. */
  lemma DefaultFiltersShowAllMine(tasks: seq<Task>, me: Id)
    ensures multiset(MyTaskRows(tasks, me, "all", "all", None)) == multiset(Filter(tasks, AssignedTo(me)))
  {
    var p, q := Matches(me, "all", "all", None), AssignedTo(me);
    assert forall x :: x in tasks ==> p(x) == q(x);
    FilterCongruent(tasks, p, q);
  }

  /** The ids of the projects I have a task in. */
  function MyProjectIds(tasks: seq<Task>, me: Id): set<Id>
  {
    set t | t in tasks && t.assigneeId == me :: t.projectId
  }

  function IdIn(ids: set<Id>): Project -> bool
  {
    (p: Project) => p.id in ids
  }

  /** `userProjectsWithTasks`: the project menu, in project order. */
  function UserProjectsWithTasks(tasks: seq<Task>, projects: seq<Project>, me: Id): (r: seq<Project>)
    ensures Subseq(r, projects)
    ensures forall p :: p in r ==> p in projects && exists t :: t in tasks && t.assigneeId == me && t.projectId == p.id
  {
    FilterMembers(projects, IdIn(MyProjectIds(tasks, me)));
    FilterSubseq(projects, IdIn(MyProjectIds(tasks, me)));
    Filter(projects, IdIn(MyProjectIds(tasks, me)))
  }

  /** A project is on the menu iff one of my tasks belongs to it. */
  lemma UserProjectsWithTasksExact(tasks: seq<Task>, projects: seq<Project>, me: Id, p: Project)
    ensures p in UserProjectsWithTasks(tasks, projects, me) <==>
              p in projects && exists t :: t in tasks && t.assigneeId == me && t.projectId == p.id
  {
    FilterMembers(projects, IdIn(MyProjectIds(tasks, me)));
  }

  /** The red row: past the due date's UTC midnight and not done. */
  predicate RowOverdue(t: Task, now: Millis)
  {
    OverdueAt(now)(t)
  }

  /** At any instant of the due day after its UTC midnight the list marks an open
      task overdue, while the board, which compares whole days, does not. */
  lemma DueTodayOverdueInListOnly(t: Task, ms: int)
    requires t.status != Done
    requires 0 < ms < DayMs
    ensures RowOverdue(t, t.dueDate * DayMs + ms)
    ensures !ProjectDetail.IsOverdue(t.dueDate, t.dueDate, t.status)
  {
  }
}

/** The new-task dialog (components/CreateTaskModal.tsx): the project menu, the
    assignee menu that follows the chosen project, form set-up and submit. Dates are
    day numbers, `None` for an empty date input. */
module CreateTask {
  import opened Wrappers
  import opened Seqs
  import opened Types
  import opened Queries
  import App

  const RequiredError := "Please fill out all required fields (Project, Title, Assignee, Due Date)."

  /** `activeProjects`: the projects that are not completed, in order. */
  function ActiveProjects(projects: seq<Project>): (r: seq<Project>)
    ensures forall p :: p in r <==> p in projects && p.status != Completed
  {
    FilterMembers(projects, ProjectActive());
    Filter(projects, ProjectActive())
  }

  /** `projects.find(p => p.id === id)`. */
  function FindProject(projects: seq<Project>, id: Id): (r: Option<Project>)
    ensures r.None? <==> forall p :: p in projects ==> p.id != id
    ensures r.Some? ==> r.value in projects && r.value.id == id
    ensures r.Some? ==> exists i :: 0 <= i < |projects| && projects[i] == r.value &&
                          forall j :: 0 <= j < i ==> projects[j].id != id
  {
    if projects == [] then None
    else if projects[0].id == id then Some(projects[0])
    else
      assert forall p :: p in projects <==> p == projects[0] || p in projects[1..];
      var rest := FindProject(projects[1..], id);
      assert forall k :: 0 <= k < |projects| - 1 ==> projects[1..][k] == projects[k + 1];
      rest
  }

  function InTeam(p: Project): User -> bool
  {
    (u: User) => u.id in p.team
  }

  /** `teamMembers`: the users of the selected project's team, none when no project
      has the selected id. */
  function TeamMembers(projects: seq<Project>, users: seq<User>, projectId: Id): (r: seq<User>)
    ensures FindProject(projects, projectId).None? ==> r == []
    ensures FindProject(projects, projectId).Some? ==>
              forall u :: u in r <==> u in users && u.id in FindProject(projects, projectId).value.team
  {
    match FindProject(projects, projectId)
    case None => []
    case Some(p) =>
      FilterMembers(users, InTeam(p));
      Filter(users, InTeam(p))
  }

  predicate HasMember(team: seq<User>, id: Id)
  {
    exists u :: u in team && u.id == id
  }

  /** The assignee the sync effect leaves: kept if on the team, else the first team
      member, else empty. */
  function SyncedAssignee(team: seq<User>, assigneeId: Id): (r: Id)
    ensures HasMember(team, assigneeId) ==> r == assigneeId
    ensures team == [] ==> r == ""
    ensures team != [] ==> HasMember(team, r)
  {
    if team != [] && !HasMember(team, assigneeId) then team[0].id
    else if team == [] then ""
    else assigneeId
  }

  /** `defaultProjectId || (activeProjects.length > 0 ? activeProjects[0].id : '')`:
      an empty default counts as no default. */
  function InitialProjectId(defaultProjectId: Option<Id>, projects: seq<Project>): (r: Id)
    ensures defaultProjectId.Some? && defaultProjectId.value != "" ==> r == defaultProjectId.value
    ensures (defaultProjectId.None? || defaultProjectId.value == "") && ActiveProjects(projects) != [] ==>
              r == ActiveProjects(projects)[0].id
    ensures (defaultProjectId.None? || defaultProjectId.value == "") && ActiveProjects(projects) == [] ==> r == ""
  {
    if defaultProjectId.Some? && defaultProjectId.value != "" then defaultProjectId.value
    else if ActiveProjects(projects) != [] then ActiveProjects(projects)[0].id
    else ""
  }

  /** Without a usable default the dialog starts on the first active project, which is
      never a completed one. */
  lemma InitialProjectIsActive(defaultProjectId: Option<Id>, projects: seq<Project>)
    requires defaultProjectId.None? || defaultProjectId.value == ""
    requires ActiveProjects(projects) != []
    ensures exists p :: p in projects && p.status != Completed && p.id == InitialProjectId(defaultProjectId, projects)
  {
    var p := ActiveProjects(projects)[0];
    assert p in ActiveProjects(projects);
  }

  /** The dialog's form state. */
  class TaskForm {
    var title: string
    var description: string
    var selectedProjectId: Id
    var assigneeId: Id
    var dueDate: Option<Day>
    var error: string

    constructor (defaultProjectId: Option<Id>)
      ensures title == "" && description == "" && assigneeId == "" && dueDate == None && error == ""
      ensures selectedProjectId == defaultProjectId.GetOr("")
    {
      title, description, assigneeId, dueDate, error := "", "", "", None, "";
      selectedProjectId := defaultProjectId.GetOr("");
    }

    /** `resetAndInitializeForm`, run when the dialog opens: a week from today as due
        date; the assignee is left to the sync effect. */
    method Reset(defaultProjectId: Option<Id>, projects: seq<Project>, today: Day)
      modifies this
      ensures title == "" && description == "" && error == ""
      ensures selectedProjectId == InitialProjectId(defaultProjectId, projects)
      ensures dueDate == Some(today + 7)
      ensures assigneeId == old(assigneeId)
    {
      title, description := "", "";
      selectedProjectId := InitialProjectId(defaultProjectId, projects);
      dueDate := Some(today + 7);
      error := "";
    }

    /** The assignee effect: afterwards the assignee is on the selected project's team,
        or the team is empty and the assignee is empty; an assignee already on the team
        is kept. */
    method SyncAssignee(projects: seq<Project>, users: seq<User>)
      modifies this
      ensures var team := TeamMembers(projects, users, selectedProjectId);
              assigneeId == SyncedAssignee(team, old(assigneeId)) &&
              (HasMember(team, assigneeId) || (team == [] && assigneeId == ""))
      ensures title == old(title) && description == old(description) && selectedProjectId == old(selectedProjectId)
      ensures dueDate == old(dueDate) && error == old(error)
    {
      var team := TeamMembers(projects, users, selectedProjectId);
      if |team| > 0 && !HasMember(team, assigneeId) {
        assigneeId := team[0].id;
      } else if |team| == 0 {
        assigneeId := "";
      }
    }

    /** `handleSubmit`: every field but the description must be non-empty (the title is
        not trimmed); the form data then goes out unchanged. */
    method HandleSubmit() returns (submitted: Option<App.TaskInput>)
      modifies this
      ensures (title == [] || assigneeId == [] || dueDate.None? || selectedProjectId == []) <==> submitted.None?
      ensures submitted.None? ==> error == RequiredError
      ensures submitted.Some? ==> error == old(error)
      ensures submitted.Some? ==> submitted.value == App.TaskInput(title, Some(description), selectedProjectId, assigneeId, dueDate.value)
      ensures title == old(title) && description == old(description) && selectedProjectId == old(selectedProjectId)
      ensures assigneeId == old(assigneeId) && dueDate == old(dueDate)
    {
      if title == [] || assigneeId == [] || dueDate.None? || selectedProjectId == [] {
        error := RequiredError;
        submitted := None;
      } else {
        submitted := Some(App.TaskInput(title, Some(description), selectedProjectId, assigneeId, dueDate.value));
      }
    }
  }
}

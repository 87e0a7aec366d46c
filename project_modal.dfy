/** The create/edit project dialog (components/ProjectModal.tsx): form set-up, the
    team check boxes and the submit guards. Dates are day numbers, `None` for an
    empty date input. */
module ProjectModal {
  import opened Wrappers
  import opened Seqs
  import opened Text
  import opened Types
  import App

  const ShortNameError := "Project Name must be at least 3 characters long."
  const MissingPrefix := "Please fill out required fields: "
  const DateOrderError := "End Date cannot be before Start Date."

  /** The required fields, in the order their names are pushed. */
  datatype Field = ProjectName | StartDate | EndDate

  function Rank(f: Field): nat
  {
    match f
    case ProjectName => 0
    case StartDate => 1
    case EndDate => 2
  }

  function Label(f: Field): string
  {
    match f
    case ProjectName => "Project Name"
    case StartDate => "Start Date"
    case EndDate => "End Date"
  }

  function Labels(fs: seq<Field>): (r: seq<string>)
    ensures |r| == |fs|
    ensures forall i :: 0 <= i < |fs| ==> r[i] == Label(fs[i])
  {
    if fs == [] then [] else [Label(fs[0])] + Labels(fs[1..])
  }

  /** `validationErrors`: exactly the missing fields, each once, in the fixed order.
      `!name.trim()` is written as `AllSpace(name)` (the same test by `BlankIffAllSpace`). */
  function MissingFields(name: string, startDate: Option<Day>, endDate: Option<Day>): (r: seq<Field>)
    ensures (ProjectName in r <==> AllSpace(name)) && (StartDate in r <==> startDate.None?) &&
            (EndDate in r <==> endDate.None?)
    ensures forall i, j :: 0 <= i < j < |r| ==> Rank(r[i]) < Rank(r[j])
  {
    var a := if AllSpace(name) then [ProjectName] else [];
    var b := if startDate.None? then [StartDate] else [];
    var c := if endDate.None? then [EndDate] else [];
    InRankOrder(a, b, c);
    a + b + c
  }

  /** Each of the three guards contributes at most its own field, in form order. */
  lemma InRankOrder(a: seq<Field>, b: seq<Field>, c: seq<Field>)
    requires a == [] || a == [ProjectName]
    requires b == [] || b == [StartDate]
    requires c == [] || c == [EndDate]
    ensures forall f :: f in a + b + c <==> f in a || f in b || f in c
    ensures forall i, j :: 0 <= i < j < |a + b + c| ==> Rank((a + b + c)[i]) < Rank((a + b + c)[j])
  {
    var r := a + b + c;
    if a == [] {
      if b == [] {
        assert r == c;
      } else {
        assert r == [StartDate] + c;
      }
    } else {
      if b == [] {
        assert r == [ProjectName] + c;
      } else {
        assert r == [ProjectName, StartDate] + c;
      }
    }
  }

  /** The message: the prefix, the labels joined by ", ", and a full stop. */
  function MissingFieldsError(missing: seq<Field>): (r: string)
    ensures |MissingPrefix| < |r| && r[..|MissingPrefix|] == MissingPrefix && r[|r| - 1] == '.'
    ensures |missing| == 1 ==> r == MissingPrefix + Label(missing[0]) + "."
  {
    var r := MissingPrefix + Join(Labels(missing), ", ") + ".";
    assert r[..|MissingPrefix|] == MissingPrefix;
    r
  }

  /** Two missing fields are listed with ", " between their labels. */
  lemma TwoMissingMessage(f: Field, g: Field)
    ensures MissingFieldsError([f, g]) == MissingPrefix + (Label(f) + ", " + Label(g)) + "."
  {
    assert Labels([f, g]) == [Label(f)] + [Label(g)];
    JoinSnoc([Label(f)], ", ", Label(g));
  }

  /** With all three fields missing, the message lists their labels in form order,
      separated by commas. */
  lemma AllMissingMessage()
    ensures MissingFieldsError([ProjectName, StartDate, EndDate])
         == MissingPrefix + (Label(ProjectName) + ", " + Label(StartDate) + ", " + Label(EndDate)) + "."
  {
    var fs := [ProjectName, StartDate, EndDate];
    assert Labels(fs) == [Label(ProjectName), Label(StartDate), Label(EndDate)];
    JoinThree(Label(ProjectName), Label(StartDate), Label(EndDate), ", ");
  }

  /** The first failing guard of `handleSubmit`, or `None` when all pass. The name's
      length is counted in UTF-16 code units, as `.length` counts it. */
  function Validate(name: string, startDate: Option<Day>, endDate: Option<Day>): (r: Option<string>)
    ensures r.None? <==> !AllSpace(name) && startDate.Some? && endDate.Some? &&
                         Utf16Length(Trim(name)) >= 3 && startDate.value <= endDate.value
  {
    BlankIffAllSpace(name);
    var missing := MissingFields(name, startDate, endDate);
    if |missing| > 0 then Some(MissingFieldsError(missing))
    else if Utf16Length(Trim(name)) < 3 then Some(ShortNameError)
    else if startDate.value > endDate.value then Some(DateOrderError)
    else None
  }

  /** Missing fields are reported first and together; a short name only once all three
      are filled; the date order only after that. Equal dates are accepted. */
  lemma ValidatePrecedence(name: string, startDate: Option<Day>, endDate: Option<Day>)
    ensures AllSpace(name) || startDate.None? || endDate.None? ==>
              Validate(name, startDate, endDate) == Some(MissingFieldsError(MissingFields(name, startDate, endDate)))
    ensures !AllSpace(name) && startDate.Some? && endDate.Some? && Utf16Length(Trim(name)) < 3 ==>
              Validate(name, startDate, endDate) == Some(ShortNameError)
    ensures !AllSpace(name) && startDate.Some? && endDate.Some? && Utf16Length(Trim(name)) >= 3 && startDate.value > endDate.value ==>
              Validate(name, startDate, endDate) == Some(DateOrderError)
  {
    BlankIffAllSpace(name);
  }

  /** A two-character name counts as three when one character lies beyond U+FFFF:
      "a" followed by U+1F600 passes the length guard. */
  lemma AstralNameLongEnough(d: Day)
    ensures Validate("a\U{1F600}", Some(d), Some(d)) == None
  {
    var name := "a\U{1F600}";
    assert !IsSpace(name[0]);
    assert TrimStart(name) == name;
    assert !IsSpace(name[1]);
    assert TrimEnd(name) == name;
    assert Utf16Length(name) == 3 by {
      assert name[1..] == ['\U{1F600}'];
      assert name[1..][1..] == [];
    }
  }

  /** With only the end date missing the error names just that field. */
  lemma OnlyEndDateMissing(name: string, start: Day)
    requires !AllSpace(name)
    ensures Validate(name, Some(start), None) == Some(MissingFieldsError([EndDate]))
  {
    BlankIffAllSpace(name);
  }

  /** What `onSubmit` receives: the form data, with the project's id when editing. */
  datatype Submission = Submission(id: Option<Id>, data: App.ProjectInput)

  /** `potentialMembers`. */
  function Assignable(): User -> bool
  {
    (u: User) => u.role == Member || u.role == Manager
  }

  function PotentialMembers(users: seq<User>): (r: seq<User>)
    ensures forall u :: u in r <==> u in users && u.role != Executive
    ensures Subseq(r, users)
  {
    FilterMembers(users, Assignable());
    FilterSubseq(users, Assignable());
    Filter(users, Assignable())
  }

  /** The id sent with a submission: the edited project's, none when creating. */
  function EditedId(projectToEdit: Option<Project>): Option<Id>
  {
    match projectToEdit
    case Some(p) => Some(p.id)
    case None => None
  }

  /** The dialog's form state. */
  class ProjectForm {
    var name: string
    var description: string
    var startDate: Option<Day>
    var endDate: Option<Day>
    var status: ProjectStatus
    var team: seq<Id>
    var error: string

    constructor ()
      ensures name == "" && description == "" && startDate == None && endDate == None
      ensures status == OnTrack && team == [] && error == ""
    {
      name, description, startDate, endDate := "", "", None, None;
      status, team, error := OnTrack, [], "";
    }

    /** The effect run when the dialog opens: an edit copies the project, a create
        starts empty with today's start date; either way the error is cleared. */
    method Open(projectToEdit: Option<Project>, today: Day)
      modifies this
      ensures projectToEdit.Some? ==>
                var p := projectToEdit.value;
                name == p.name && description == p.description && startDate == Some(p.startDate) &&
                endDate == Some(p.endDate) && status == p.status && team == p.team
      ensures projectToEdit.None? ==>
                name == "" && description == "" && startDate == Some(today) && endDate == None &&
                status == OnTrack && team == []
      ensures error == ""
    {
      error := "";
      match projectToEdit
      case Some(p) =>
        name, description, startDate, endDate := p.name, p.description, Some(p.startDate), Some(p.endDate);
        status, team := p.status, p.team;
      case None =>
        name, description, startDate, endDate := "", "", Some(today), None;
        status, team := OnTrack, [];
    }

    /** `handleTeamChange`: removes every occurrence of a listed id, appends a new one. */
    method HandleTeamChange(userId: Id)
      modifies this
      ensures team == Toggle(old(team), userId)
      ensures userId in old(team) ==> userId !in team
      ensures userId !in old(team) ==> team == old(team) + [userId]
      ensures name == old(name) && description == old(description) && startDate == old(startDate)
      ensures endDate == old(endDate) && status == old(status) && error == old(error)
    {
      team := Toggle(team, userId);
    }

    /** `handleSubmit`: the untrimmed fields go out when every guard passes, with the
        edited project's id in edit mode; otherwise the first failing guard's error. */
    method HandleSubmit(projectToEdit: Option<Project>) returns (submitted: Option<Submission>)
      modifies this
      ensures Validate(name, startDate, endDate).Some? ==>
                submitted == None && error == Validate(name, startDate, endDate).value
      ensures Validate(name, startDate, endDate).None? ==>
                error == "" && startDate.Some? && endDate.Some? &&
                submitted == Some(Submission(EditedId(projectToEdit),
                                             App.ProjectInput(name, description, startDate.value, endDate.value, status, team)))
      ensures name == old(name) && description == old(description) && startDate == old(startDate)
      ensures endDate == old(endDate) && status == old(status) && team == old(team)
    {
      var v := Validate(name, startDate, endDate);
      if v.Some? {
        error := v.value;
        submitted := None;
      } else {
        error := "";
        submitted := Some(Submission(EditedId(projectToEdit),
                                     App.ProjectInput(name, description, startDate.value, endDate.value, status, team)));
      }
    }
  }
}

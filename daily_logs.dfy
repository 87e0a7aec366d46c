/** The daily activity log view (components/DailyLogsView.tsx): logs newest first,
    three filters, and the collaborators shown on each log. */
module DailyLogs {
  import opened Wrappers
  import opened Seqs
  import opened Types

  /** Sorting key for newest first: the negated day. */
  function NewestFirstKey(l: Log): real
  {
    -(l.date as real)
  }

  /** `sortedLogs`: a stable sort by date, latest first. */
  function SortedLogs(logs: seq<Log>): (r: seq<Log>)
    ensures multiset(r) == multiset(logs)
    ensures forall i, j :: 0 <= i < j < |r| ==> r[i].date >= r[j].date
  {
    var r := SortBy(logs, NewestFirstKey);
    assert forall i, j :: 0 <= i < j < |r| ==> NewestFirstKey(r[i]) <= NewestFirstKey(r[j]);
    r
  }

  /** Logs of the same day keep their original order. */
  lemma SortedLogsStable(logs: seq<Log>, d: Day)
    ensures Filter(SortedLogs(logs), HasKey(NewestFirstKey, -(d as real))) == Filter(logs, HasKey(NewestFirstKey, -(d as real)))
  {
    SortByStable(logs, NewestFirstKey, -(d as real));
  }

  /** The row test; `date == None` is the empty date input, `"all"` the unset menus. */
  function LogMatches(date: Option<Day>, project: string, user: string): Log -> bool
  {
    (l: Log) =>
      (date.None? || l.date == date.value) &&
      (project == "all" || l.projectId == project) &&
      (user == "all" || l.userId == user)
  }

  /** `filteredLogs`. */
  function FilteredLogs(logs: seq<Log>, date: Option<Day>, project: string, user: string): (r: seq<Log>)
    ensures forall i, j :: 0 <= i < j < |r| ==> r[i].date >= r[j].date
    ensures multiset(r) <= multiset(logs)
  {
    var s, p := SortedLogs(logs), LogMatches(date, project, user);
    FilterSorted(s, p, NewestFirstKey);
    FilterMembers(s, p);
    var r := Filter(s, p);
    assert forall i, j :: 0 <= i < j < |r| ==> NewestFirstKey(r[i]) <= NewestFirstKey(r[j]);
    r
  }

  /** A log is shown iff it passes every set filter. */
  lemma FilteredLogsExact(logs: seq<Log>, date: Option<Day>, project: string, user: string, l: Log)
    ensures l in FilteredLogs(logs, date, project, user) <==>
              l in logs && (date.None? || l.date == date.value) &&
              (project == "all" || l.projectId == project) && (user == "all" || l.userId == user)
  {
    var s := SortedLogs(logs);
    FilterMembers(s, LogMatches(date, project, user));
    assert l in s <==> l in multiset(s);
  }

  /** With no filter set every log is shown, newest first. */
  lemma DefaultFiltersShowAll(logs: seq<Log>)
    ensures FilteredLogs(logs, None, "all", "all") == SortedLogs(logs)
  {
    FilterAll(SortedLogs(logs), LogMatches(None, "all", "all"));
  }

  /** `userMap.get(id)` for `new Map(users.map(u => [u.id, u]))`: with repeated ids
      the last user wins. */
  function UserMapGet(users: seq<User>, id: Id): (r: Option<User>)
    ensures r.None? <==> forall u :: u in users ==> u.id != id
    ensures r.Some? ==> r.value in users && r.value.id == id
  {
    if users == [] then None
    else
      var last := users[|users| - 1];
      assert forall u :: u in users <==> u in users[..|users| - 1] || u == last;
      if last.id == id then Some(last) else UserMapGet(users[..|users| - 1], id)
  }

  /** The user found is the last one with that id. */
  lemma {:induction false} UserMapGetLastWins(users: seq<User>, id: Id)
    ensures var r := UserMapGet(users, id);
            r.Some? ==> exists i :: 0 <= i < |users| && users[i] == r.value &&
                          forall j :: i < j < |users| ==> users[j].id != id
  {
    if users != [] && users[|users| - 1].id != id {
      var front := users[..|users| - 1];
      UserMapGetLastWins(front, id);
      var r := UserMapGet(front, id);
      if r.Some? {
        var i :| 0 <= i < |front| && front[i] == r.value && forall j :: i < j < |front| ==> front[j].id != id;
        assert users[i] == r.value;
        forall j | i < j < |users| ensures users[j].id != id {
          if j < |front| { assert users[j] == front[j]; }
        }
      }
    }
  }

  function Known(users: seq<User>): Id -> bool
  {
    (id: Id) => UserMapGet(users, id).Some?
  }

  function IdOf(u: User): Id
  {
    u.id
  }

  /** The collaborator avatars: each listed id mapped to its user, unknown ids dropped. */
  function Collaborators(log: Log, users: seq<User>): (r: seq<User>)
    ensures log.collaboratorIds.None? ==> r == []
    ensures forall u :: u in r ==> u in users
  {
    Resolve(log.collaboratorIds.GetOr([]), users)
  }

  function Resolve(ids: seq<Id>, users: seq<User>): (r: seq<User>)
    ensures forall u :: u in r ==> u in users && u.id in ids
  {
    if ids == [] then []
    else
      var rest := Resolve(ids[1..], users);
      match UserMapGet(users, ids[0])
      case None => rest
      case Some(u) => [u] + rest
  }

  /** The avatars are the known ids' users, one per known id and in the listed order. */
  lemma {:induction false} ResolveSpec(ids: seq<Id>, users: seq<User>)
    ensures var r, kept := Resolve(ids, users), Filter(ids, Known(users));
            |r| == |kept| && forall i :: 0 <= i < |r| ==> Some(r[i]) == UserMapGet(users, kept[i])
  {
    if ids != [] {
      ResolveSpec(ids[1..], users);
      FilterCons(ids[0], ids[1..], Known(users));
      assert ids == [ids[0]] + ids[1..];
    }
  }

  /** The filter row. */
  class Filters {
    var selectedDate: Option<Day>
    var selectedProject: string
    var selectedUser: string

    constructor ()
      ensures selectedDate == None && selectedProject == "all" && selectedUser == "all"
      ensures !Active()
    {
      selectedDate := None;
      selectedProject := "all";
      selectedUser := "all";
    }

    /** Whether the "Clear filters" button is shown. */
    predicate Active()
      reads this
    {
      selectedDate.Some? || selectedProject != "all" || selectedUser != "all"
    }

    /** The "Clear filters" button. */
    method Clear()
      modifies this
      ensures selectedDate == None && selectedProject == "all" && selectedUser == "all"
      ensures !Active()
    {
      selectedDate := None;
      selectedProject := "all";
      selectedUser := "all";
    }

    /** The logs shown under the current filters. */
    function Shown(logs: seq<Log>): (r: seq<Log>)
      reads this
      ensures !Active() ==> r == SortedLogs(logs)
    {
      DefaultFiltersShowAll(logs);
      FilteredLogs(logs, selectedDate, selectedProject, selectedUser)
    }
  }
}

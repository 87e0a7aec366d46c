/** The application shell (App.tsx): the task, project and notification stores
    with their optimistic-update handlers, fractional reordering of a dropped
    card, and the two member lists derived for managers. */
module App {
  import opened Wrappers
  import opened Seqs
  import opened Text
  import opened Types
  import opened Queries

  // ---------------------------------------------------------------------
  // Fractional reordering (handleTaskMove)
  // ---------------------------------------------------------------------

  /** Tasks a card can be dropped among: the new status, any project, not the dragged card. */
  function InDestination(status: TaskStatus, dragged: Id): Task -> bool
  {
    (t: Task) => t.status == status && t.id != dragged
  }

  /** The destination column, sorted ascending by `order`. */
  function Destination(tasks: seq<Task>, dragged: Id, status: TaskStatus): (r: seq<Task>)
    ensures SortedBy(r, OrderKey)
    ensures multiset(r) == multiset(Filter(tasks, InDestination(status, dragged)))
  {
    SortBy(Filter(tasks, InDestination(status, dragged)), OrderKey)
  }

  /** The destination holds exactly the other tasks with the new status. */
  lemma DestinationMembers(tasks: seq<Task>, dragged: Id, status: TaskStatus, t: Task)
    ensures t in Destination(tasks, dragged, status) <==> t in tasks && t.status == status && t.id != dragged
  {
    var f := Filter(tasks, InDestination(status, dragged));
    FilterMembers(tasks, InDestination(status, dragged));
    assert t in Destination(tasks, dragged, status) <==> t in multiset(f);
  }

  /** `findIndex(t => t.id === id)`, with `None` for -1. */
  function IndexOfId(s: seq<Task>, id: Id): (r: Option<nat>)
    ensures r.Some? ==> r.value < |s| && s[r.value].id == id
    ensures r.Some? ==> forall j :: 0 <= j < r.value ==> s[j].id != id
    ensures r.None? <==> forall j :: 0 <= j < |s| ==> s[j].id != id
  {
    if s == [] then None
    else if s[0].id == id then Some(0)
    else match IndexOfId(s[1..], id)
      case None => None
      case Some(k) => Some(k + 1)
  }

  /** The order a moved card receives in the sorted destination `dest`. With no
      target it goes after the last card (1 in an empty column); before a target it
      takes the midpoint of the target and its predecessor (0 at the front). `None`
      is the case where the target is not in `dest`: the handler throws on reading
      the missing neighbour and nothing is moved. */
  function MoveOrder(dest: seq<Task>, target: Option<Id>): (r: Option<real>)
    ensures target.None? ==> r.Some?
    ensures target.Some? ==> (r.None? <==> forall j :: 0 <= j < |dest| ==> dest[j].id != target.value)
  {
    match target
    case None =>
      if dest == [] then Some(1.0) else Some(dest[|dest| - 1].order + 1.0)
    case Some(id) =>
      match IndexOfId(dest, id)
      case None => None
      case Some(i) => Some((Predecessor(dest, i) + dest[i].order) / 2.0)
  }

  /** The order of the card before index `i`, 0 at the front of the column. */
  function Predecessor(dest: seq<Task>, i: nat): real
    requires i < |dest|
  {
    if i == 0 then 0.0 else dest[i - 1].order
  }

  /** Appending to a sorted column gives an order above every card in it, and 1 to an empty one. */
  lemma AppendGoesLast(dest: seq<Task>)
    requires SortedBy(dest, OrderKey)
    ensures MoveOrder(dest, None).Some?
    ensures dest == [] ==> MoveOrder(dest, None).value == 1.0
    ensures forall j :: 0 <= j < |dest| ==> dest[j].order < MoveOrder(dest, None).value
  {
    if dest != [] {
      forall j | 0 <= j < |dest|
        ensures dest[j].order < MoveOrder(dest, None).value
      {
        if j < |dest| - 1 {
          assert OrderKey(dest[j]) <= OrderKey(dest[|dest| - 1]);
        }
      }
    }
  }

  /** Dropping before the card at index `i` of a sorted column gives the midpoint
      of that card and its predecessor (0 at the front). When the two differ, the
      new order is above every card before `i` and below every card from `i` on,
      so re-sorting puts the moved card exactly at index `i`. */
  lemma InsertLandsAtTarget(dest: seq<Task>, id: Id, i: nat)
    requires SortedBy(dest, OrderKey)
    requires IndexOfId(dest, id) == Some(i)
    ensures MoveOrder(dest, Some(id)) == Some((Predecessor(dest, i) + dest[i].order) / 2.0)
    ensures Predecessor(dest, i) < dest[i].order ==>
              var o := MoveOrder(dest, Some(id)).value;
              Predecessor(dest, i) < o < dest[i].order &&
              (forall j :: 0 <= j < i ==> dest[j].order < o) &&
              (forall j :: i <= j < |dest| ==> o < dest[j].order)
  {
    var o := (Predecessor(dest, i) + dest[i].order) / 2.0;
    assert MoveOrder(dest, Some(id)) == Some(o);
    if Predecessor(dest, i) < dest[i].order {
      SplitsAt(dest, i, o);
    }
  }

  /** In a sorted column, a value strictly between the card at `i` and its predecessor
      (0 at the front) lies above every card before `i` and below every card from `i` on. */
  lemma SplitsAt(dest: seq<Task>, i: nat, o: real)
    requires SortedBy(dest, OrderKey) && i < |dest|
    requires Predecessor(dest, i) < o < dest[i].order
    ensures forall j :: 0 <= j < i ==> dest[j].order < o
    ensures forall j :: i <= j < |dest| ==> o < dest[j].order
  {
    forall j | 0 <= j < i
      ensures dest[j].order < o
    {
      if j < i - 1 {
        assert OrderKey(dest[j]) <= OrderKey(dest[i - 1]);
      }
    }
    forall j | i <= j < |dest|
      ensures o < dest[j].order
    {
      if i < j {
        assert OrderKey(dest[i]) <= OrderKey(dest[j]);
      }
    }
  }

  /** When every order in the column is positive, so is the order a move computes. */
  lemma MoveOrderPositive(dest: seq<Task>, target: Option<Id>)
    requires forall j :: 0 <= j < |dest| ==> dest[j].order > 0.0
    ensures MoveOrder(dest, target).Some? ==> MoveOrder(dest, target).value > 0.0
  {
  }

  /** A card dropped on itself (above its own midpoint) has no target in the
      destination, which excludes the dragged card, so the move is lost. */
  lemma SelfDropIsLost(tasks: seq<Task>, dragged: Id, status: TaskStatus)
    ensures MoveOrder(Destination(tasks, dragged, status), Some(dragged)) == None
  {
    var d := Destination(tasks, dragged, status);
    forall j | 0 <= j < |d|
      ensures d[j].id != dragged
    {
      DestinationMembers(tasks, dragged, status, d[j]);
    }
  }

  // ---------------------------------------------------------------------
  // Task creation and update
  // ---------------------------------------------------------------------

  /** The task form's data: a task without id, status, order and dependencies. */
  datatype TaskInput = TaskInput(
    title: string,
    description: Option<string>,
    projectId: Id,
    assigneeId: Id,
    dueDate: Day)

  /** `Math.max(0, ...ts.map(t => t.order))`. */
  function MaxOrder(ts: seq<Task>): (r: real)
    ensures r >= 0.0
    ensures forall j :: 0 <= j < |ts| ==> ts[j].order <= r
    ensures r == 0.0 || exists j :: 0 <= j < |ts| && ts[j].order == r
  {
    if ts == [] then 0.0
    else
      var m := MaxOrder(ts[1..]);
      assert forall j :: 1 <= j < |ts| ==> ts[j] == ts[1..][j - 1];
      if ts[0].order > m then ts[0].order else m
  }

  /** The order a new task receives in its project: one above the largest order in
      the project, and 1 in a project whose orders are all at most 0. */
  function NewTaskOrder(tasks: seq<Task>, projectId: Id): (r: real)
    ensures r >= 1.0
    ensures forall j :: 0 <= j < |tasks| && tasks[j].projectId == projectId ==> tasks[j].order < r
    ensures r == 1.0 || exists j :: 0 <= j < |tasks| && tasks[j].projectId == projectId && tasks[j].order == r - 1.0
  {
    ProjectMaxOrder(tasks, projectId);
    MaxOrder(Filter(tasks, OfProject(projectId))) + 1.0
  }

  /** The largest order among a project's tasks bounds each of them and, unless it is
      the floor 0, is the order of one of them. */
  lemma ProjectMaxOrder(tasks: seq<Task>, projectId: Id)
    ensures var m := MaxOrder(Filter(tasks, OfProject(projectId)));
            (forall j :: 0 <= j < |tasks| && tasks[j].projectId == projectId ==> tasks[j].order <= m) &&
            (m == 0.0 || exists j :: 0 <= j < |tasks| && tasks[j].projectId == projectId && tasks[j].order == m)
  {
    var f := Filter(tasks, OfProject(projectId));
    FilterMembers(tasks, OfProject(projectId));
    forall j | 0 <= j < |tasks| && tasks[j].projectId == projectId
      ensures tasks[j].order <= MaxOrder(f)
    {
      assert tasks[j] in f;
      var k :| 0 <= k < |f| && f[k] == tasks[j];
    }
    if MaxOrder(f) != 0.0 {
      var k :| 0 <= k < |f| && f[k].order == MaxOrder(f);
      assert f[k] in tasks;
      var j :| 0 <= j < |tasks| && tasks[j] == f[k];
    }
  }

  /** The task the create handler adds: id "t" followed by the clock reading. */
  function NewTask(tasks: seq<Task>, data: TaskInput, now: nat): (r: Task)
    ensures r.title == data.title && r.description == data.description && r.projectId == data.projectId
    ensures r.assigneeId == data.assigneeId && r.dueDate == data.dueDate
    ensures r.status == ToDo && r.dependencies == [] && r.order == NewTaskOrder(tasks, data.projectId)
    ensures |r.id| >= 2 && r.id[0] == 't' && DigitsValue(r.id[1..]) == now
  {
    var id := "t" + NatToString(now);
    assert id[1..] == NatToString(now);
    Task(id, data.title, data.description, data.projectId, data.assigneeId,
         ToDo, data.dueDate, NewTaskOrder(tasks, data.projectId), [])
  }

  /** The fields an update supplies; absent fields keep their value. */
  datatype TaskPatch = TaskPatch(
    title: Option<string>,
    description: Option<Option<string>>,
    projectId: Option<Id>,
    assigneeId: Option<Id>,
    status: Option<TaskStatus>,
    dueDate: Option<Day>,
    order: Option<real>,
    dependencies: Option<seq<Id>>)

  const NoChanges := TaskPatch(None, None, None, None, None, None, None, None)

  /** The patch a move sends. */
  function MovePatch(status: TaskStatus, order: real): TaskPatch
  {
    NoChanges.(status := Some(status), order := Some(order))
  }

  /** `{ ...t, ...p }`. */
  function ApplyPatch(t: Task, p: TaskPatch): (r: Task)
    ensures r.id == t.id
    ensures p.title.None? ==> r.title == t.title
    ensures p.description.None? ==> r.description == t.description
    ensures p.projectId.None? ==> r.projectId == t.projectId
    ensures p.assigneeId.None? ==> r.assigneeId == t.assigneeId
    ensures p.status.None? ==> r.status == t.status
    ensures p.dueDate.None? ==> r.dueDate == t.dueDate
    ensures p.order.None? ==> r.order == t.order
    ensures p.dependencies.None? ==> r.dependencies == t.dependencies
  {
    Task(t.id,
         p.title.GetOr(t.title),
         p.description.GetOr(t.description),
         p.projectId.GetOr(t.projectId),
         p.assigneeId.GetOr(t.assigneeId),
         p.status.GetOr(t.status),
         p.dueDate.GetOr(t.dueDate),
         p.order.GetOr(t.order),
         p.dependencies.GetOr(t.dependencies))
  }

  /** An empty patch changes nothing, and applying a patch twice is applying it once. */
  lemma ApplyPatchLaws(t: Task, p: TaskPatch)
    ensures ApplyPatch(t, NoChanges) == t
    ensures ApplyPatch(ApplyPatch(t, p), p) == ApplyPatch(t, p)
  {
  }

  /** A move patch sets exactly the status and the order. */
  lemma MovePatchSetsStatusAndOrder(t: Task, status: TaskStatus, order: real)
    ensures ApplyPatch(t, MovePatch(status, order)) == t.(status := status, order := order)
  {
  }

  /** `ts.map(t => t.id === id ? x : t)`. */
  function ReplaceTask(ts: seq<Task>, id: Id, x: Task): (r: seq<Task>)
    ensures |r| == |ts|
    ensures forall j :: 0 <= j < |ts| && ts[j].id == id ==> r[j] == x
  {
    seq(|ts|, j requires 0 <= j < |ts| => if ts[j].id == id then x else ts[j])
  }

  /** Replacing by id changes the matching entries only, and a second replace of
      an entry that kept its id overrides the first. */
  lemma ReplaceTaskLaws(ts: seq<Task>, id: Id, x: Task, y: Task)
    ensures |ReplaceTask(ts, id, x)| == |ts|
    ensures forall j :: 0 <= j < |ts| && ts[j].id != id ==> ReplaceTask(ts, id, x)[j] == ts[j]
    ensures (forall j :: 0 <= j < |ts| ==> ts[j].id != id) ==> ReplaceTask(ts, id, x) == ts
    ensures x.id == id ==> ReplaceTask(ReplaceTask(ts, id, x), id, y) == ReplaceTask(ts, id, y)
  {
  }

  /** `t => t.id !== id`. */
  function NotTaskId(id: Id): Task -> bool
  {
    (t: Task) => t.id != id
  }

  predicate FreshTaskId(ts: seq<Task>, id: Id)
  {
    forall j :: 0 <= j < |ts| ==> ts[j].id != id
  }

  /** Removing the just-appended task restores the list when its id was fresh. */
  lemma RevertAppendRestores(ts: seq<Task>, t: Task)
    requires FreshTaskId(ts, t.id)
    ensures Filter(ts + [t], NotTaskId(t.id)) == ts
  {
    FilterConcat(ts, [t], NotTaskId(t.id));
    FilterAll(ts, NotTaskId(t.id));
    FilterNone([t], NotTaskId(t.id));
  }

  /** Deleting removes exactly the tasks with that id, keeping the others in order. */
  lemma DeleteRemovesOnlyThatId(ts: seq<Task>, id: Id, t: Task)
    ensures t in Filter(ts, NotTaskId(id)) <==> t in ts && t.id != id
    ensures FreshTaskId(ts, id) ==> Filter(ts, NotTaskId(id)) == ts
  {
    FilterMembers(ts, NotTaskId(id));
    if FreshTaskId(ts, id) {
      FilterAll(ts, NotTaskId(id));
    }
  }

  // ---------------------------------------------------------------------
  // Projects
  // ---------------------------------------------------------------------

  /** The project form's data: a project without id and progress. */
  datatype ProjectInput = ProjectInput(
    name: string,
    description: string,
    startDate: Day,
    endDate: Day,
    status: ProjectStatus,
    team: seq<Id>)

  function NewProject(data: ProjectInput, now: nat): Project
  {
    Project("p" + NatToString(now), data.name, data.description, data.startDate, data.endDate,
            data.status, 0, data.team)
  }

  /** `{ ...p, ...data }` for an edit: every form field is taken, id and progress are kept. */
  function MergeProject(p: Project, data: ProjectInput): (r: Project)
    ensures r.id == p.id && r.progress == p.progress
  {
    p.(name := data.name, description := data.description, startDate := data.startDate,
       endDate := data.endDate, status := data.status, team := data.team)
  }

  /** `ps.map(p => p.id === id ? f(p) : p)` for the edit merge. */
  function MergeProjectById(ps: seq<Project>, id: Id, data: ProjectInput): (r: seq<Project>)
    ensures |r| == |ps|
    ensures forall j :: 0 <= j < |ps| && ps[j].id == id ==> r[j] == MergeProject(ps[j], data)
  {
    seq(|ps|, j requires 0 <= j < |ps| => if ps[j].id == id then MergeProject(ps[j], data) else ps[j])
  }

  function ReplaceProject(ps: seq<Project>, id: Id, x: Project): seq<Project>
  {
    seq(|ps|, j requires 0 <= j < |ps| => if ps[j].id == id then x else ps[j])
  }

  function NotProjectId(id: Id): Project -> bool
  {
    (p: Project) => p.id != id
  }

  predicate FreshProjectId(ps: seq<Project>, id: Id)
  {
    forall j :: 0 <= j < |ps| ==> ps[j].id != id
  }

  /** Removing the just-appended project restores the list when its id was fresh. */
  lemma RevertProjectAppendRestores(ps: seq<Project>, p: Project)
    requires FreshProjectId(ps, p.id)
    ensures Filter(ps + [p], NotProjectId(p.id)) == ps
  {
    FilterConcat(ps, [p], NotProjectId(p.id));
    FilterAll(ps, NotProjectId(p.id));
    FilterNone([p], NotProjectId(p.id));
  }

  /** An edit changes only the projects with the edited id, and keeps every id and progress. */
  lemma MergeKeepsOthers(ps: seq<Project>, id: Id, data: ProjectInput)
    ensures |MergeProjectById(ps, id, data)| == |ps|
    ensures forall j :: 0 <= j < |ps| ==>
              MergeProjectById(ps, id, data)[j].id == ps[j].id &&
              MergeProjectById(ps, id, data)[j].progress == ps[j].progress
    ensures forall j :: 0 <= j < |ps| && ps[j].id != id ==> MergeProjectById(ps, id, data)[j] == ps[j]
  {
  }

  // ---------------------------------------------------------------------
  // Notifications
  // ---------------------------------------------------------------------

  /** The notifications a send creates, one per recipient, in recipient order. */
  function NewNotifications(message: string, recipientIds: seq<Id>, sender: Id, now: nat): (r: seq<Notification>)
    ensures |r| == |recipientIds|
    ensures forall j :: 0 <= j < |r| ==>
              r[j].recipientId == recipientIds[j] && r[j].senderId == sender &&
              r[j].message == message && !r[j].isRead
  {
    seq(|recipientIds|, j requires 0 <= j < |recipientIds| =>
      Notification("n" + NatToString(now) + recipientIds[j], recipientIds[j], sender, message, now, false))
  }

  predicate HasNotificationId(ns: seq<Notification>, id: Id)
  {
    exists j :: 0 <= j < |ns| && ns[j].id == id
  }

  /** `n => !ns.some(m => m.id === n.id)`. */
  function NotAmong(ns: seq<Notification>): Notification -> bool
  {
    (n: Notification) => !HasNotificationId(ns, n.id)
  }

  /** After a failed send the new notifications are dropped again; when their ids were fresh
      this restores the old list. */
  lemma RevertSendRestores(sent: seq<Notification>, before: seq<Notification>)
    requires forall j :: 0 <= j < |before| ==> !HasNotificationId(sent, before[j].id)
    ensures Filter(sent + before, NotAmong(sent)) == before
  {
    FilterConcat(sent, before, NotAmong(sent));
    forall j | 0 <= j < |sent|
      ensures !NotAmong(sent)(sent[j])
    {
      assert sent[j].id == sent[j].id;
    }
    FilterNone(sent, NotAmong(sent));
    FilterAll(before, NotAmong(sent));
  }

  /** The optimistic mark-all-read: the current user's notifications become read. */
  function MarkAllRead(ns: seq<Notification>, me: Id): (r: seq<Notification>)
    ensures |r| == |ns|
    ensures forall j :: 0 <= j < |ns| ==> r[j] == ns[j].(isRead := ns[j].isRead || ns[j].recipientId == me)
  {
    seq(|ns|, j requires 0 <= j < |ns| => if ns[j].recipientId == me then ns[j].(isRead := true) else ns[j])
  }

  /** Mark-all-read sets `isRead` on exactly the current user's notifications and leaves others unchanged. */
  lemma MarkAllReadExactlyMine(ns: seq<Notification>, me: Id)
    ensures forall j :: 0 <= j < |ns| ==> (MarkAllRead(ns, me)[j] == ns[j] <==> (ns[j].recipientId != me || ns[j].isRead))
    ensures forall j :: 0 <= j < |ns| && ns[j].recipientId == me ==> MarkAllRead(ns, me)[j].isRead
    ensures forall j :: 0 <= j < |ns| ==> MarkAllRead(ns, me)[j].id == ns[j].id &&
                                            MarkAllRead(ns, me)[j].recipientId == ns[j].recipientId
  {
  }

  /** The optimistic single read: the notifications with that id become read. */
  function MarkOneRead(ns: seq<Notification>, id: Id): (r: seq<Notification>)
    ensures |r| == |ns|
    ensures forall j :: 0 <= j < |ns| ==> r[j] == ns[j].(isRead := ns[j].isRead || ns[j].id == id)
  {
    seq(|ns|, j requires 0 <= j < |ns| => if ns[j].id == id then ns[j].(isRead := true) else ns[j])
  }

  /** `n` is the first notification of `ns` with the id. */
  predicate FirstWithId(ns: seq<Notification>, id: Id, n: Notification)
  {
    exists k :: 0 <= k < |ns| && ns[k] == n && n.id == id && forall i :: 0 <= i < k ==> ns[i].id != id
  }

  /** `ns.find(n => n.id === id)`. */
  function FindNotification(ns: seq<Notification>, id: Id): (r: Option<Notification>)
    ensures r.None? <==> !HasNotificationId(ns, id)
    ensures r.Some? ==> FirstWithId(ns, id, r.value)
  {
    if ns == [] then None
    else if ns[0].id == id then
      assert FirstWithId(ns, id, ns[0]) by { assert ns[0] == ns[0]; }
      Some(ns[0])
    else
      var rest := FindNotification(ns[1..], id);
      assert forall k :: 0 <= k < |ns| - 1 ==> ns[1..][k] == ns[k + 1];
      if rest.Some? then
        var k :| 0 <= k < |ns[1..]| && ns[1..][k] == rest.value && rest.value.id == id &&
                 forall i :: 0 <= i < k ==> ns[1..][i].id != id;
        assert ns[k + 1] == rest.value && forall i :: 0 <= i < k + 1 ==> ns[i].id != id;
        rest
      else rest
  }

  function RecipientIs(me: Id): Notification -> bool
  {
    (n: Notification) => n.recipientId == me
  }

  function RecipientIsNot(me: Id): Notification -> bool
  {
    (n: Notification) => n.recipientId != me
  }

  /** `updated.find(un => un.id === n.id) || n`. */
  function ServerCopy(updated: seq<Notification>, n: Notification): (m: Notification)
    ensures HasNotificationId(updated, n.id) ==> FirstWithId(updated, n.id, m)
    ensures !HasNotificationId(updated, n.id) ==> m == n
  {
    FindNotification(updated, n.id).GetOr(n)
  }

  /** The merge after a successful mark-all-read: other users' notifications first, in
      order; then the current user's, in order, each replaced by the first server copy
      with its id when the server sent one. */
  function MergeMarkedAll(ns: seq<Notification>, me: Id, updated: seq<Notification>): (r: seq<Notification>)
    ensures |r| == |ns|
    ensures var others := Filter(ns, RecipientIsNot(me));
            |others| <= |r| && r[..|others|] == others
    ensures var others, mine := Filter(ns, RecipientIsNot(me)), Filter(ns, RecipientIs(me));
            |others| + |mine| == |r| &&
            forall j :: 0 <= j < |mine| ==> r[|others| + j] == ServerCopy(updated, mine[j])
  {
    var others, mine := Filter(ns, RecipientIsNot(me)), Filter(ns, RecipientIs(me));
    FilterComplement(ns, RecipientIs(me), RecipientIsNot(me));
    var copies := seq(|mine|, j requires 0 <= j < |mine| => ServerCopy(updated, mine[j]));
    assert (others + copies)[..|others|] == others;
    assert forall j :: 0 <= j < |mine| ==> (others + copies)[|others| + j] == copies[j];
    others + copies
  }

  /** After the other users' notifications, the `j`-th of the current user's is the
      first server copy with its id, or itself when the server sent none. */
  lemma MergeMarkedAllServerCopies(ns: seq<Notification>, me: Id, updated: seq<Notification>)
    ensures var r, others, mine := MergeMarkedAll(ns, me, updated), Filter(ns, RecipientIsNot(me)), Filter(ns, RecipientIs(me));
            |others| + |mine| == |r| &&
            forall j :: 0 <= j < |mine| ==>
              (HasNotificationId(updated, mine[j].id) ==> FirstWithId(updated, mine[j].id, r[|others| + j])) &&
              (!HasNotificationId(updated, mine[j].id) ==> r[|others| + j] == mine[j])
  {
    var r, others, mine := MergeMarkedAll(ns, me, updated), Filter(ns, RecipientIsNot(me)), Filter(ns, RecipientIs(me));
    forall j | 0 <= j < |mine|
      ensures (HasNotificationId(updated, mine[j].id) ==> FirstWithId(updated, mine[j].id, r[|others| + j])) &&
              (!HasNotificationId(updated, mine[j].id) ==> r[|others| + j] == mine[j])
    {
      assert r[|others| + j] == ServerCopy(updated, mine[j]);
    }
  }

  /** With no server copies the merge only moves the current user's notifications to the end. */
  lemma MergeMarkedAllKeepsAll(ns: seq<Notification>, me: Id)
    ensures multiset(MergeMarkedAll(ns, me, [])) == multiset(ns)
  {
    var r := MergeMarkedAll(ns, me, []);
    var others, mine := Filter(ns, RecipientIsNot(me)), Filter(ns, RecipientIs(me));
    FilterComplement(ns, RecipientIs(me), RecipientIsNot(me));
    assert r == others + mine by {
      forall k | 0 <= k < |r|
        ensures r[k] == (others + mine)[k]
      {
        if k < |others| {
          assert r[k] == r[..|others|][k];
        } else {
          assert !HasNotificationId([], mine[k - |others|].id);
        }
      }
    }
  }

  // ---------------------------------------------------------------------
  // Member lists for managers
  // ---------------------------------------------------------------------

  /** `uid` is on the team of some project the user `me` is on. */
  predicate OnSharedTeam(projects: seq<Project>, me: Id, uid: Id)
  {
    exists j :: 0 <= j < |projects| && me in projects[j].team && uid in projects[j].team
  }

  /** `uid` is on the team of some project whose id is that of a project `me` is on. */
  predicate OnManagedProject(projects: seq<Project>, me: Id, uid: Id)
  {
    exists j :: 0 <= j < |projects| && ManagedId(projects, me, projects[j].id) && uid in projects[j].team
  }

  predicate ManagedId(projects: seq<Project>, me: Id, pid: Id)
  {
    exists i :: 0 <= i < |projects| && me in projects[i].team && projects[i].id == pid
  }

  function DailyStatusMember(projects: seq<Project>, me: Id): User -> bool
  {
    (u: User) => OnManagedProject(projects, me, u.id) && u.role == Member
  }

  function ManagerTeamMember(projects: seq<Project>, me: Id): User -> bool
  {
    (u: User) => OnSharedTeam(projects, me, u.id) && u.id != me
  }

  function NotUser(me: Id): User -> bool
  {
    (u: User) => u.id != me
  }

  function InIdSet(ids: set<Id>): User -> bool
  {
    (u: User) => u.id in ids
  }

  function InIdSetWithRole(ids: set<Id>, role: UserRole): User -> bool
  {
    (u: User) => u.id in ids && u.role == role
  }

  function InIdSetExcept(ids: set<Id>, me: Id): User -> bool
  {
    (u: User) => u.id in ids && u.id != me
  }

  /** The state of `AppContent`: the loaded stores and the navigation state. */
  class AppContent {
    const currentUser: User
    var users: seq<User>
    var projects: seq<Project>
    var tasks: seq<Task>
    var notifications: seq<Notification>
    var currentPage: string
    var selectedProjectId: Option<Id>

    /** The component after its initial fetch has loaded the stores. */
    constructor (currentUser: User, users: seq<User>, projects: seq<Project>, tasks: seq<Task>,
                 notifications: seq<Notification>)
      ensures this.currentUser == currentUser && this.users == users && this.projects == projects
      ensures this.tasks == tasks && this.notifications == notifications
      ensures currentPage == "dashboard" && selectedProjectId == None
    {
      this.currentUser := currentUser;
      this.users := users;
      this.projects := projects;
      this.tasks := tasks;
      this.notifications := notifications;
      currentPage := "dashboard";
      selectedProjectId := None;
    }

    /** handleTaskCreate with the clock reading `now`; `ok` and `saved` are the server's
        answer. `pending` is the optimistic list shown while the request runs. */
    method TaskCreate(data: TaskInput, now: nat, ok: bool, saved: Task) returns (pending: seq<Task>)
      modifies this
      ensures var t := NewTask(old(tasks), data, now);
              pending == old(tasks) + [t] &&
              t.status == ToDo && t.dependencies == [] &&
              (ok ==> tasks == ReplaceTask(pending, t.id, saved)) &&
              (!ok ==> tasks == Filter(pending, NotTaskId(t.id)))
      ensures !ok && FreshTaskId(old(tasks), NewTask(old(tasks), data, now).id) ==> tasks == old(tasks)
      ensures users == old(users) && projects == old(projects) && notifications == old(notifications)
      ensures currentPage == old(currentPage) && selectedProjectId == old(selectedProjectId)
    {
      var t := NewTask(tasks, data, now);
      tasks := tasks + [t];
      pending := tasks;
      if ok {
        tasks := ReplaceTask(tasks, t.id, saved);
      } else {
        if FreshTaskId(old(tasks), t.id) {
          RevertAppendRestores(old(tasks), t);
        }
        tasks := Filter(tasks, NotTaskId(t.id));
      }
    }

    /** handleTaskUpdate: an unknown id changes nothing; otherwise every task with
        that id shows the first one patched, then the saved copy or, on failure,
        the snapshot taken before the call. */
    method TaskUpdate(taskId: Id, updates: TaskPatch, ok: bool, saved: Task) returns (found: bool, pending: seq<Task>)
      modifies this
      ensures found <==> !FreshTaskId(old(tasks), taskId)
      ensures !found ==> pending == old(tasks) && tasks == old(tasks)
      ensures found ==>
                var i := IndexOfId(old(tasks), taskId).value;
                pending == ReplaceTask(old(tasks), taskId, ApplyPatch(old(tasks)[i], updates)) &&
                tasks == (if ok then ReplaceTask(old(tasks), taskId, saved) else old(tasks))
      ensures users == old(users) && projects == old(projects) && notifications == old(notifications)
      ensures currentPage == old(currentPage) && selectedProjectId == old(selectedProjectId)
    {
      var original := tasks;
      var idx := IndexOfId(tasks, taskId);
      if idx.None? {
        return false, tasks;
      }
      found := true;
      var updated := ApplyPatch(tasks[idx.value], updates);
      tasks := ReplaceTask(tasks, taskId, updated);
      pending := tasks;
      if ok {
        ReplaceTaskLaws(original, taskId, updated, saved);
        tasks := ReplaceTask(tasks, taskId, saved);
      } else {
        tasks := original;
      }
    }

    /** handleTaskDelete: the task disappears, and comes back (the whole snapshot does) on failure. */
    method TaskDelete(taskId: Id, ok: bool) returns (pending: seq<Task>)
      modifies this
      ensures pending == Filter(old(tasks), NotTaskId(taskId))
      ensures tasks == (if ok then pending else old(tasks))
      ensures users == old(users) && projects == old(projects) && notifications == old(notifications)
      ensures currentPage == old(currentPage) && selectedProjectId == old(selectedProjectId)
    {
      var original := tasks;
      tasks := Filter(tasks, NotTaskId(taskId));
      pending := tasks;
      if !ok {
        tasks := original;
      }
    }

    /** handleTaskMove: the new order is computed against the destination column and
        sent as a status-and-order update of the dragged task. A target missing from
        the column makes the handler throw before any update (`moved` is false). */
    method TaskMove(dragged: Id, target: Option<Id>, newStatus: TaskStatus, ok: bool, saved: Task)
      returns (moved: bool, pending: seq<Task>)
      modifies this
      ensures var o := MoveOrder(Destination(old(tasks), dragged, newStatus), target);
              moved <==> o.Some? && !FreshTaskId(old(tasks), dragged)
      ensures !moved ==> tasks == old(tasks) && pending == old(tasks)
      ensures moved ==>
                var o := MoveOrder(Destination(old(tasks), dragged, newStatus), target).value;
                var i := IndexOfId(old(tasks), dragged).value;
                pending == ReplaceTask(old(tasks), dragged, old(tasks)[i].(status := newStatus, order := o)) &&
                tasks == (if ok then ReplaceTask(old(tasks), dragged, saved) else old(tasks))
      ensures users == old(users) && projects == old(projects) && notifications == old(notifications)
      ensures currentPage == old(currentPage) && selectedProjectId == old(selectedProjectId)
    {
      var dest := Destination(tasks, dragged, newStatus);
      var o := MoveOrder(dest, target);
      if o.None? {
        return false, tasks;
      }
      var idx := IndexOfId(tasks, dragged);
      if idx.Some? {
        MovePatchSetsStatusAndOrder(tasks[idx.value], newStatus, o.value);
      }
      moved, pending := TaskUpdate(dragged, MovePatch(newStatus, o.value), ok, saved);
    }

    /** handleProjectCreate: id "p" followed by the clock reading, progress 0. */
    method ProjectCreate(data: ProjectInput, now: nat, ok: bool, saved: Project) returns (pending: seq<Project>)
      modifies this
      ensures var p := NewProject(data, now);
              pending == old(projects) + [p] &&
              (ok ==> projects == ReplaceProject(pending, p.id, saved)) &&
              (!ok ==> projects == Filter(pending, NotProjectId(p.id)))
      ensures !ok && FreshProjectId(old(projects), NewProject(data, now).id) ==> projects == old(projects)
      ensures users == old(users) && tasks == old(tasks) && notifications == old(notifications)
      ensures currentPage == old(currentPage) && selectedProjectId == old(selectedProjectId)
    {
      var p := NewProject(data, now);
      projects := projects + [p];
      pending := projects;
      if ok {
        projects := ReplaceProject(projects, p.id, saved);
      } else {
        if FreshProjectId(old(projects), p.id) {
          RevertProjectAppendRestores(old(projects), p);
        }
        projects := Filter(projects, NotProjectId(p.id));
      }
    }

    /** handleProjectUpdate: the edit is merged into the project with that id; the
        saved copy then replaces the project with the id the server returned. */
    method ProjectUpdate(id: Id, data: ProjectInput, ok: bool, saved: Project) returns (pending: seq<Project>)
      modifies this
      ensures pending == MergeProjectById(old(projects), id, data)
      ensures projects == (if ok then ReplaceProject(pending, saved.id, saved) else old(projects))
      ensures users == old(users) && tasks == old(tasks) && notifications == old(notifications)
      ensures currentPage == old(currentPage) && selectedProjectId == old(selectedProjectId)
    {
      var original := projects;
      projects := MergeProjectById(projects, id, data);
      pending := projects;
      if ok {
        projects := ReplaceProject(projects, saved.id, saved);
      } else {
        projects := original;
      }
    }

    /** handleProjectDelete: on success, a deleted selected project sends the user back to the list. */
    method ProjectDelete(projectId: Id, ok: bool) returns (pending: seq<Project>)
      modifies this
      ensures pending == Filter(old(projects), NotProjectId(projectId))
      ensures projects == (if ok then pending else old(projects))
      ensures ok && old(selectedProjectId) == Some(projectId) ==>
                selectedProjectId == None && currentPage == "projects"
      ensures !(ok && old(selectedProjectId) == Some(projectId)) ==>
                selectedProjectId == old(selectedProjectId) && currentPage == old(currentPage)
      ensures users == old(users) && tasks == old(tasks) && notifications == old(notifications)
    {
      var original := projects;
      projects := Filter(projects, NotProjectId(projectId));
      pending := projects;
      if ok {
        if selectedProjectId == Some(projectId) {
          selectedProjectId := None;
          currentPage := "projects";
        }
      } else {
        projects := original;
      }
    }

    /** handleSendNotification: one unread notification per recipient goes in front; on
        success the server's copies replace them, on failure they are removed again. */
    method SendNotification(message: string, recipientIds: seq<Id>, now: nat, ok: bool, saved: seq<Notification>)
      returns (pending: seq<Notification>)
      modifies this
      ensures var sent := NewNotifications(message, recipientIds, currentUser.id, now);
              pending == sent + old(notifications) &&
              (ok ==> notifications == saved + Filter(pending, NotAmong(saved))) &&
              (!ok ==> notifications == Filter(pending, NotAmong(sent)))
      ensures var sent := NewNotifications(message, recipientIds, currentUser.id, now);
              !ok && (forall j :: 0 <= j < |old(notifications)| ==> !HasNotificationId(sent, old(notifications)[j].id)) ==>
                notifications == old(notifications)
      ensures users == old(users) && tasks == old(tasks) && projects == old(projects)
      ensures currentPage == old(currentPage) && selectedProjectId == old(selectedProjectId)
    {
      var sent := NewNotifications(message, recipientIds, currentUser.id, now);
      notifications := sent + notifications;
      pending := notifications;
      if ok {
        notifications := saved + Filter(notifications, NotAmong(saved));
      } else {
        if forall j :: 0 <= j < |old(notifications)| ==> !HasNotificationId(sent, old(notifications)[j].id) {
          RevertSendRestores(sent, old(notifications));
        }
        notifications := Filter(notifications, NotAmong(sent));
      }
    }

    /** handleMarkNotificationAsRead: "all" marks the current user's notifications,
        any other id that one notification; a failure restores the snapshot. */
    method MarkNotificationAsRead(id: Id, ok: bool, updated: seq<Notification>) returns (pending: seq<Notification>)
      modifies this
      ensures id == "all" ==> pending == MarkAllRead(old(notifications), currentUser.id)
      ensures id == "all" && ok ==> notifications == MergeMarkedAll(pending, currentUser.id, updated)
      ensures id != "all" ==> pending == MarkOneRead(old(notifications), id)
      ensures id != "all" && ok ==> notifications == pending
      ensures !ok ==> notifications == old(notifications)
      ensures users == old(users) && tasks == old(tasks) && projects == old(projects)
      ensures currentPage == old(currentPage) && selectedProjectId == old(selectedProjectId)
    {
      var original := notifications;
      if id == "all" {
        notifications := MarkAllRead(notifications, currentUser.id);
        pending := notifications;
        if ok {
          notifications := MergeMarkedAll(notifications, currentUser.id, updated);
        } else {
          notifications := original;
        }
      } else {
        notifications := MarkOneRead(notifications, id);
        pending := notifications;
        if !ok {
          notifications := original;
        }
      }
    }

    /** membersForDailyStatus: for a manager, the Team Members on the teams of the
        projects whose ids are those of projects the manager is on; for anyone else, none. */
    method MembersForDailyStatus() returns (r: seq<User>)
      ensures currentUser.role == Manager ==> r == Filter(users, DailyStatusMember(projects, currentUser.id))
      ensures currentUser.role != Manager ==> r == []
    {
      if currentUser.role != Manager {
        return [];
      }
      var me := currentUser.id;
      var managed := set i | 0 <= i < |projects| && me in projects[i].team :: projects[i].id;
      var memberIds: set<Id> := {};
      for k := 0 to |projects|
        invariant forall uid :: uid in memberIds <==>
                    exists j :: 0 <= j < k && projects[j].id in managed && uid in projects[j].team
      {
        if projects[k].id in managed {
          memberIds := memberIds + set uid | uid in projects[k].team;
        }
      }
      forall u: User
        ensures InIdSetWithRole(memberIds, Member)(u) == DailyStatusMember(projects, me)(u)
      {
        if u.id in memberIds {
          var j :| 0 <= j < |projects| && projects[j].id in managed && u.id in projects[j].team;
          var i :| 0 <= i < |projects| && me in projects[i].team && projects[i].id == projects[j].id;
          assert ManagedId(projects, me, projects[j].id);
        }
        if OnManagedProject(projects, me, u.id) {
          var j :| 0 <= j < |projects| && ManagedId(projects, me, projects[j].id) && u.id in projects[j].team;
          var i :| 0 <= i < |projects| && me in projects[i].team && projects[i].id == projects[j].id;
          assert projects[j].id in managed;
        }
      }
      FilterCongruent(users, InIdSetWithRole(memberIds, Member), DailyStatusMember(projects, me));
      r := Filter(users, InIdSetWithRole(memberIds, Member));
    }

    /** teamMembersForManager: an executive sees every other user; anyone else the
        other users on the teams they are on. */
    method TeamMembersForManager() returns (r: seq<User>)
      ensures currentUser.role == Executive ==> r == Filter(users, NotUser(currentUser.id))
      ensures currentUser.role != Executive ==> r == Filter(users, ManagerTeamMember(projects, currentUser.id))
    {
      var me := currentUser.id;
      if currentUser.role == Executive {
        return Filter(users, NotUser(me));
      }
      var teamIds: set<Id> := {};
      for k := 0 to |projects|
        invariant forall uid :: uid in teamIds <==>
                    exists j :: 0 <= j < k && me in projects[j].team && uid in projects[j].team
      {
        if me in projects[k].team {
          teamIds := teamIds + set uid | uid in projects[k].team;
        }
      }
      FilterCongruent(users, InIdSetExcept(teamIds, me), ManagerTeamMember(projects, me));
      r := Filter(users, InIdSetExcept(teamIds, me));
    }
  }

  // ---------------------------------------------------------------------
  // The sample board (data.ts)
  // ---------------------------------------------------------------------

  /** The sample tasks, in fixture order; due dates are days since 1970-01-01. */
  const T1: Task := Task("t1", "Design account summary UI", None, "p1", "u3", Done, 19940, 10.0, [])
  const T2: Task := Task("t2", "Develop funds transfer API", None, "p1", "u2", Review, 19945, 10.0, [])
  const T3: Task := Task("t3", "Set up staging environment", None, "p1", "u2", InProgress, 19947, 10.0, [])
  const T4: Task := Task("t4", "User acceptance testing", None, "p1", "u3", ToDo, 19955, 10.0, [])
  const T13: Task := Task("t13", "Deploy to production", None, "p1", "u1", ToDo, 19967, 20.0, [])
  const T5: Task := Task("t5", "Analyze data migration scripts", None, "p2", "u4", InProgress, 19950, 20.0, [])
  const T6: Task := Task("t6", "Configure test environment for CBS", None, "p2", "u5", InProgress, 19953, 30.0, [])
  const T7: Task := Task("t7", "Procure new server hardware", None, "p2", "u1", Done, 19934, 20.0, [])
  const T8: Task := Task("t8", "Initial data migration test run", None, "p2", "u4", ToDo, 19960, 30.0, [])
  const T9: Task := Task("t9", "Integrate third-party ID verification SDK", None, "p3", "u2", Done, 19936, 30.0, [])
  const T10: Task := Task("t10", "Build admin verification portal", None, "p3", "u4", InProgress, 19957, 40.0, [])
  const T11: Task := Task("t11", "Draft compliance report", None, "p3", "u1", ToDo, 19963, 40.0, [])
  const T12: Task := Task("t12", "Perform security audit", None, "p3", "u2", ToDo, 19971, 50.0, [])

  const SampleP1: seq<Task> := [T1, T2, T3, T4, T13]
  const SampleP2: seq<Task> := [T5, T6, T7, T8]
  const SampleP3: seq<Task> := [T9, T10, T11, T12]
  const SampleTasks: seq<Task> := SampleP1 + SampleP2 + SampleP3

  /** The ToDo tasks of sample project p1, other than t3. */
  lemma SampleP1ToDo()
    ensures Filter(SampleP1, InDestination(ToDo, "t3")) == [T4, T13]
  {
    var p := InDestination(ToDo, "t3");
    SampleP1Tail();
    assert Filter([T2, T3, T4, T13], p) == [T4, T13] by {
      FilterCons(T2, [T3, T4, T13], p);
      assert [T2] + [T3, T4, T13] == [T2, T3, T4, T13];
    }
    assert Filter([T1, T2, T3, T4, T13], p) == [T4, T13] by {
      FilterCons(T1, [T2, T3, T4, T13], p);
      assert [T1] + [T2, T3, T4, T13] == [T1, T2, T3, T4, T13];
    }
  }

  lemma SampleP1Tail()
    ensures Filter([T3, T4, T13], InDestination(ToDo, "t3")) == [T4, T13]
  {
    var p := InDestination(ToDo, "t3");
    assert Filter([T13], p) == [T13] by {
      FilterCons(T13, [], p);
      assert [T13] + [] == [T13];
    }
    assert Filter([T4, T13], p) == [T4, T13] by {
      FilterCons(T4, [T13], p);
      assert [T4] + [T13] == [T4, T13];
    }
    assert Filter([T3, T4, T13], p) == [T4, T13] by {
      FilterCons(T3, [T4, T13], p);
      assert [T3] + [T4, T13] == [T3, T4, T13];
    }
  }

  /** The ToDo tasks of sample project p2, other than t3. */
  lemma SampleP2ToDo()
    ensures Filter(SampleP2, InDestination(ToDo, "t3")) == [T8]
  {
    var p := InDestination(ToDo, "t3");
    SampleP2Tail();
    assert Filter([T5, T6, T7, T8], p) == [T8] by {
      FilterCons(T5, [T6, T7, T8], p);
      assert [T5] + [T6, T7, T8] == [T5, T6, T7, T8];
    }
  }

  lemma SampleP2Tail()
    ensures Filter([T6, T7, T8], InDestination(ToDo, "t3")) == [T8]
  {
    var p := InDestination(ToDo, "t3");
    assert Filter([T8], p) == [T8] by {
      FilterCons(T8, [], p);
      assert [T8] + [] == [T8];
    }
    assert Filter([T7, T8], p) == [T8] by {
      FilterCons(T7, [T8], p);
      assert [T7] + [T8] == [T7, T8];
    }
    assert Filter([T6, T7, T8], p) == [T8] by {
      FilterCons(T6, [T7, T8], p);
      assert [T6] + [T7, T8] == [T6, T7, T8];
    }
  }

  /** The ToDo tasks of sample project p3, other than t3. */
  lemma SampleP3ToDo()
    ensures Filter(SampleP3, InDestination(ToDo, "t3")) == [T11, T12]
  {
    var p := InDestination(ToDo, "t3");
    SampleP3Tail();
    assert Filter([T9, T10, T11, T12], p) == [T11, T12] by {
      FilterCons(T9, [T10, T11, T12], p);
      assert [T9] + [T10, T11, T12] == [T9, T10, T11, T12];
    }
  }

  lemma SampleP3Tail()
    ensures Filter([T10, T11, T12], InDestination(ToDo, "t3")) == [T11, T12]
  {
    var p := InDestination(ToDo, "t3");
    assert Filter([T12], p) == [T12] by {
      FilterCons(T12, [], p);
      assert [T12] + [] == [T12];
    }
    assert Filter([T11, T12], p) == [T11, T12] by {
      FilterCons(T11, [T12], p);
      assert [T11] + [T12] == [T11, T12];
    }
    assert Filter([T10, T11, T12], p) == [T11, T12] by {
      FilterCons(T10, [T11, T12], p);
      assert [T10] + [T11, T12] == [T10, T11, T12];
    }
  }

  /** The ToDo column of the sample board without t3, across projects: t4, t13, t8, t11, t12. */
  lemma SampleToDoColumn()
    ensures Filter(SampleTasks, InDestination(ToDo, "t3")) == [T4, T13, T8, T11, T12]
  {
    var p := InDestination(ToDo, "t3");
    SampleP1ToDo();
    SampleP2ToDo();
    SampleP3ToDo();
    FilterConcat(SampleP1, SampleP2, p);
    FilterConcat(SampleP1 + SampleP2, SampleP3, p);
  }

  /** The destination of t3 in ToDo on the sample board, already in ascending order. */
  lemma SampleDestination()
    ensures Destination(SampleTasks, "t3", ToDo) == [T4, T13, T8, T11, T12]
  {
    SampleToDoColumn();
    SampleColumnInOrder();
  }

  /** The sample ToDo column is already in ascending order, so sorting keeps it. */
  lemma SampleColumnInOrder()
    ensures SortBy([T4, T13, T8, T11, T12], OrderKey) == [T4, T13, T8, T11, T12]
  {
    SortBySortedIsIdentity([T4, T13, T8, T11, T12], OrderKey);
  }

  /** On the sample board, dropping the in-progress t3 before t11 takes the midpoint
      of t8 (order 30) and t11 (order 40), 35; dropping it at the end of the column
      takes 51, one above t12. */
  lemma SampleDropBeforeT11()
    ensures MoveOrder(Destination(SampleTasks, "t3", ToDo), Some("t11")) == Some(35.0)
    ensures MoveOrder(Destination(SampleTasks, "t3", ToDo), None) == Some(51.0)
  {
    var d := Destination(SampleTasks, "t3", ToDo);
    SampleDestination();
    SampleIndexOfT11();
    assert Predecessor(d, 3) == 30.0 && d[3].order == 40.0;
    assert MoveOrder(d, Some("t11")) == Some((30.0 + 40.0) / 2.0);
    assert d[|d| - 1].order == 50.0;
  }

  /** t11 is fourth in the sample ToDo column. */
  lemma SampleIndexOfT11()
    ensures IndexOfId([T4, T13, T8, T11, T12], "t11") == Some(3)
  {
    var d := [T4, T13, T8, T11, T12];
    assert IndexOfId(d[3..], "t11") == Some(0);
    assert d[2..][1..] == d[3..];
    assert IndexOfId(d[2..], "t11") == Some(1);
    assert d[1..][1..] == d[2..];
    assert IndexOfId(d[1..], "t11") == Some(2);
  }
}

/** The project board (components/ProjectDetail.tsx): four status columns, the
    due-date flags on each card, the drop-target search and the drag state. */
module ProjectDetail {
  import opened Wrappers
  import opened Seqs
  import opened Types
  import opened Queries

  // ---------------------------------------------------------------------
  // Columns
  // ---------------------------------------------------------------------

  /** The tasks of the project shown. */
  function ProjectTasks(tasks: seq<Task>, projectId: Id): seq<Task>
  {
    Filter(tasks, OfProject(projectId))
  }

  /** A board column: the project's tasks with that status, in ascending `order`. */
  function Column(tasks: seq<Task>, projectId: Id, status: TaskStatus): (r: seq<Task>)
    ensures SortedBy(r, OrderKey)
    ensures multiset(r) == multiset(Filter(ProjectTasks(tasks, projectId), HasStatus(status)))
  {
    SortBy(Filter(ProjectTasks(tasks, projectId), HasStatus(status)), OrderKey)
  }

  /** A task is in a column iff it belongs to the project and has that column's status. */
  lemma ColumnMembers(tasks: seq<Task>, projectId: Id, status: TaskStatus, t: Task)
    ensures t in Column(tasks, projectId, status) <==> t in tasks && t.projectId == projectId && t.status == status
  {
    var pt := ProjectTasks(tasks, projectId);
    var f := Filter(pt, HasStatus(status));
    var c := Column(tasks, projectId, status);
    assert t in c <==> t in f by {
      assert t in c <==> t in multiset(c);
      assert t in f <==> t in multiset(f);
    }
    assert t in f <==> t in pt && t.status == status by { FilterMembers(pt, HasStatus(status)); }
    assert t in pt <==> t in tasks && t.projectId == projectId by { FilterMembers(tasks, OfProject(projectId)); }
  }

  /** The four columns partition the project's tasks: each of them is in exactly one
      column, its status's, and the column sizes add up to the number of project tasks. */
  lemma ColumnsPartition(tasks: seq<Task>, projectId: Id)
    ensures multiset(Column(tasks, projectId, ToDo)) + multiset(Column(tasks, projectId, InProgress)) +
            multiset(Column(tasks, projectId, Review)) + multiset(Column(tasks, projectId, Done))
         == multiset(ProjectTasks(tasks, projectId))
    ensures |Column(tasks, projectId, ToDo)| + |Column(tasks, projectId, InProgress)| +
            |Column(tasks, projectId, Review)| + |Column(tasks, projectId, Done)|
         == |ProjectTasks(tasks, projectId)|
  {
    var pt := ProjectTasks(tasks, projectId);
    StatusSplit(pt);
    var a, b, c, d := Column(tasks, projectId, ToDo), Column(tasks, projectId, InProgress),
                      Column(tasks, projectId, Review), Column(tasks, projectId, Done);
    assert multiset(a) + multiset(b) + multiset(c) + multiset(d) == multiset(pt);
    assert |multiset(a) + multiset(b) + multiset(c) + multiset(d)| == |a| + |b| + |c| + |d|;
  }

  /** Cards with equal `order` keep their relative order in the column. */
  lemma ColumnStable(tasks: seq<Task>, projectId: Id, status: TaskStatus, k: real)
    ensures Filter(Column(tasks, projectId, status), HasKey(OrderKey, k))
         == Filter(Filter(ProjectTasks(tasks, projectId), HasStatus(status)), HasKey(OrderKey, k))
  {
    SortByStable(Filter(ProjectTasks(tasks, projectId), HasStatus(status)), OrderKey, k);
  }

  // ---------------------------------------------------------------------
  // Due-date flags
  // ---------------------------------------------------------------------

  /** `Math.ceil(a / b)` for a positive divisor. */
  function CeilDiv(a: int, b: int): (r: int)
    requires b > 0
    ensures (r - 1) * b < a <= r * b
  {
    -((-a) / b)
  }

  /** `diffDays`: the due date's local midnight minus today's, in milliseconds,
      divided by the length of a day and rounded up. */
  function DaysUntil(today: Day, due: Day): (r: int)
    ensures r == due - today
  {
    CeilDiv((due - today) * DayMs, DayMs)
  }

  /** The board's overdue flag. */
  predicate IsOverdue(today: Day, due: Day, status: TaskStatus)
  {
    today > due && status != Done
  }

  /** The board's due-soon flag: today, tomorrow or the day after, and not overdue. */
  predicate IsDueSoon(today: Day, due: Day, status: TaskStatus)
  {
    var d := DaysUntil(today, due);
    d >= 0 && d <= 2 && !IsOverdue(today, due, status) && status != Done
  }

  /** Overdue means past due and open; due soon means due within the next two days
      and open; the two never hold together, and a Done task has neither. */
  lemma DueFlags(today: Day, due: Day, status: TaskStatus)
    ensures IsOverdue(today, due, status) <==> due < today && status != Done
    ensures IsDueSoon(today, due, status) <==> today <= due <= today + 2 && status != Done
    ensures !(IsOverdue(today, due, status) && IsDueSoon(today, due, status))
    ensures status == Done ==> !IsOverdue(today, due, status) && !IsDueSoon(today, due, status)
  {
  }

  // ---------------------------------------------------------------------
  // Drop target
  // ---------------------------------------------------------------------

  /** A rendered card: its task id and its vertical box. */
  datatype Card = Card(taskId: string, top: real, height: real)

  /** How far the cursor is below the card's vertical midpoint. */
  function Offset(c: Card, y: real): real
  {
    y - c.top - c.height / 2.0
  }

  /** The `reduce` in getDropTargetTaskId: the index of the card, in DOM order, whose
      midpoint is the nearest one below the cursor. */
  function Closest(cards: seq<Card>, y: real): (r: Option<nat>)
    ensures r.None? <==> forall i :: 0 <= i < |cards| ==> Offset(cards[i], y) >= 0.0
    ensures r.Some? ==> r.value < |cards| && Offset(cards[r.value], y) < 0.0
    ensures r.Some? ==> forall i :: 0 <= i < |cards| && Offset(cards[i], y) < 0.0 ==>
                          Offset(cards[i], y) <= Offset(cards[r.value], y)
    ensures r.Some? ==> forall i :: 0 <= i < r.value && Offset(cards[i], y) < 0.0 ==>
                          Offset(cards[i], y) < Offset(cards[r.value], y)
    decreases |cards|
  {
    if cards == [] then None
    else
      var init := cards[..|cards| - 1];
      var prev := Closest(init, y);
      assert forall i :: 0 <= i < |init| ==> init[i] == cards[i];
      var o := Offset(cards[|cards| - 1], y);
      if o < 0.0 && (prev.None? || o > Offset(cards[prev.value], y)) then Some(|cards| - 1) else prev
  }

  /** The dropped-on task: the id of the nearest card whose midpoint is below the
      cursor; none when there is no such card, and none for an empty `data-task-id`. */
  function DropTargetId(cards: seq<Card>, y: real): (r: Option<Id>)
    ensures r.Some? <==> Closest(cards, y).Some? && cards[Closest(cards, y).value].taskId != []
    ensures r.Some? ==> r.value == cards[Closest(cards, y).value].taskId
    ensures r.Some? ==> r.value != [] && exists i :: 0 <= i < |cards| && cards[i].taskId == r.value && Offset(cards[i], y) < 0.0
    ensures (forall i :: 0 <= i < |cards| ==> Offset(cards[i], y) >= 0.0) ==> r.None?
  {
    match Closest(cards, y)
    case None => None
    case Some(i) => if cards[i].taskId == [] then None else Some(cards[i].taskId)
  }

  /** When several cards sit at the same nearest offset, the first of them in DOM order wins. */
  lemma DropTargetTieGoesFirst(cards: seq<Card>, y: real, i: nat, j: nat)
    requires i < j < |cards|
    requires Offset(cards[i], y) < 0.0 && Offset(cards[i], y) == Offset(cards[j], y)
    ensures Closest(cards, y) != Some(j)
  {
  }

  // ---------------------------------------------------------------------
  // Drag state
  // ---------------------------------------------------------------------

  /** What a drop asks the task store to do: `onTaskMove(taskId, target, status)`. */
  datatype MoveRequest = MoveRequest(taskId: Id, target: Option<Id>, status: TaskStatus)

  /** The board's drag-and-drop and selection state. */
  class Board {
    var draggedTaskId: Option<Id>
    var dragOverStatus: Option<TaskStatus>
    var selectedTask: Option<Task>

    constructor ()
      ensures draggedTaskId == None && dragOverStatus == None && selectedTask == None
    {
      draggedTaskId := None;
      dragOverStatus := None;
      selectedTask := None;
    }

    /** handleDragStart: the payload carries the task id; the card is shown as dragged. */
    method DragStart(taskId: Id) returns (payload: string)
      modifies this
      ensures payload == taskId && draggedTaskId == Some(taskId)
      ensures dragOverStatus == old(dragOverStatus) && selectedTask == old(selectedTask)
    {
      draggedTaskId := Some(taskId);
      payload := taskId;
    }

    /** handleDragEnd. */
    method DragEnd()
      modifies this
      ensures draggedTaskId == None && dragOverStatus == None && selectedTask == old(selectedTask)
    {
      draggedTaskId := None;
      dragOverStatus := None;
    }

    /** handleDragEnter: the column under the cursor is highlighted. */
    method DragEnter(status: TaskStatus)
      modifies this
      ensures dragOverStatus == Some(status)
      ensures draggedTaskId == old(draggedTaskId) && selectedTask == old(selectedTask)
    {
      dragOverStatus := Some(status);
    }

    /** onDrop: with a task id in the payload ("" when there is none) a move is
        requested towards the drop target; the highlight is cleared either way. */
    method Drop(newStatus: TaskStatus, payload: string, cards: seq<Card>, y: real) returns (move: Option<MoveRequest>)
      modifies this
      ensures move.Some? <==> payload != []
      ensures move.Some? ==> move.value == MoveRequest(payload, DropTargetId(cards, y), newStatus)
      ensures dragOverStatus == None
      ensures draggedTaskId == old(draggedTaskId) && selectedTask == old(selectedTask)
    {
      if payload != [] {
        move := Some(MoveRequest(payload, DropTargetId(cards, y), newStatus));
      } else {
        move := None;
      }
      dragOverStatus := None;
    }

    /** A card click opens the task detail. */
    method SelectTask(t: Task)
      modifies this
      ensures selectedTask == Some(t)
      ensures draggedTaskId == old(draggedTaskId) && dragOverStatus == old(dragOverStatus)
    {
      selectedTask := Some(t);
    }

    /** Closing the task detail. */
    method CloseTask()
      modifies this
      ensures selectedTask == None
      ensures draggedTaskId == old(draggedTaskId) && dragOverStatus == old(dragOverStatus)
    {
      selectedTask := None;
    }
  }

  // ---------------------------------------------------------------------
  // Comments of the selected task
  // ---------------------------------------------------------------------

  function OnTask(taskId: Id): Comment -> bool
  {
    (c: Comment) => c.taskId == taskId
  }

  function StampKey(c: Comment): real
  {
    c.timestamp as real
  }

  /** The comments handed to the task detail. */
  function TaskComments(comments: seq<Comment>, taskId: Id): (r: seq<Comment>)
    ensures SortedBy(r, StampKey)
    ensures multiset(r) == multiset(Filter(comments, OnTask(taskId)))
  {
    SortBy(Filter(comments, OnTask(taskId)), StampKey)
  }

  /** The task detail receives exactly that task's comments, each as often as it
      occurs, oldest first. */
  lemma TaskCommentsExact(comments: seq<Comment>, taskId: Id, c: Comment)
    ensures c in TaskComments(comments, taskId) <==> c in comments && c.taskId == taskId
    ensures forall i, j :: 0 <= i < j < |TaskComments(comments, taskId)| ==>
              TaskComments(comments, taskId)[i].timestamp <= TaskComments(comments, taskId)[j].timestamp
  {
    FilterMembers(comments, OnTask(taskId));
    assert c in TaskComments(comments, taskId) <==> c in multiset(Filter(comments, OnTask(taskId)));
    var r := TaskComments(comments, taskId);
    forall i, j | 0 <= i < j < |r|
      ensures r[i].timestamp <= r[j].timestamp
    {
      assert StampKey(r[i]) <= StampKey(r[j]);
    }
  }
}

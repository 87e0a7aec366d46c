/** The records the client works with (types.ts). Dates are day numbers
    (days since an epoch, one per calendar date string "YYYY-MM-DD");
    timestamps are milliseconds. */
module Types {
  import opened Wrappers

  type Id = string

  /** A calendar date, as a day number. */
  type Day = int

  /** An instant, in milliseconds. */
  type Millis = int

  /** Milliseconds in a day: `new Date("YYYY-MM-DD")` is UTC midnight, `Day * DayMs`. */
  const DayMs: int := 86400000

  datatype UserRole = Manager | Member | Executive

  datatype User = User(id: Id, name: string, email: string, avatar: string, role: UserRole)

  datatype ProjectStatus = OnTrack | AtRisk | OffTrack | OnHold | Completed

  datatype Project = Project(
    id: Id,
    name: string,
    description: string,
    startDate: Day,
    endDate: Day,
    status: ProjectStatus,
    progress: int,
    team: seq<Id>)

  /** A daily log. The view that lists logs also reads an optional list of collaborator ids. */
  datatype Log = Log(
    id: Id,
    projectId: Id,
    userId: Id,
    date: Day,
    hours: real,
    task: string,
    blockers: Option<string>,
    collaboratorIds: Option<seq<Id>>)

  datatype TaskStatus = ToDo | InProgress | Review | Done

  /** A task. `order` places it within its status column; `dependencies` is the list
      that task creation attaches (always empty, and read by nothing). */
  datatype Task = Task(
    id: Id,
    title: string,
    description: Option<string>,
    projectId: Id,
    assigneeId: Id,
    status: TaskStatus,
    dueDate: Day,
    order: real,
    dependencies: seq<Id>)

  datatype Comment = Comment(id: Id, taskId: Id, userId: Id, text: string, timestamp: Millis)

  datatype Notification = Notification(
    id: Id,
    recipientId: Id,
    senderId: Id,
    message: string,
    timestamp: Millis,
    isRead: bool)

  datatype LogReminder = LogReminder(email: bool, telegram: bool, telegramUsername: Option<string>, time: string)

  datatype NotificationSettings = NotificationSettings(logReminder: LogReminder)

  datatype UserSettings = UserSettings(notifications: NotificationSettings)

  /** The string value of each `TaskStatus` member, as a `<select>` reports it. */
  function StatusValue(s: TaskStatus): (r: string)
    ensures |r| >= 4
  {
    match s
    case ToDo => "ToDo"
    case InProgress => "InProgress"
    case Review => "Review"
    case Done => "Done"
  }

  /** Distinct statuses have distinct string values, so a value names one status. */
  lemma StatusValueInjective(s: TaskStatus, t: TaskStatus)
    ensures StatusValue(s) == StatusValue(t) <==> s == t
  {
  }

  /** The sort key of a board column. */
  function OrderKey(t: Task): real
  {
    t.order
  }

  /** The sort key `new Date(t.dueDate).getTime()` orders by. */
  function DueKey(t: Task): real
  {
    t.dueDate as real
  }

  /** The hours of a log, as the charts add them up. */
  function LogHours(l: Log): real
  {
    l.hours
  }
}

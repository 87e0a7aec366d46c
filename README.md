# Project-management client: a Dafny model

This project models the client of a bank's internal project-management web app. Managers, team members and executives sign in, browse projects, move task cards on a four-column board (To Do, In Progress, Review, Done), file daily work logs, send notifications and read reports. The model covers:

- the application shell with its task, project and notification stores;
- the optimistic update-then-confirm-or-revert handlers;
- the fractional `order` a dropped card receives;
- the derived lists and counts every view shows;
- the form validators with their error precedence;
- the two relative-time formatters;
- the role-based navigation.

Each source file of the core has its own Dafny module. Five shared modules support them:

- `Wrappers`: an `Option` type.
- `Seqs`: filter, stable insertion sort, take, sums and toggle, with their laws.
- `Text`: the JavaScript whitespace set, `trim`, ASCII lower-casing, the unanchored e-mail pattern, `join`, number printing and the UTF-16 length.
- `Types`: the records of `types.ts`.
- `Queries`: the task and project predicates several views filter by (project, status, open, assignee, past due), with the laws relating those filters.

Stateful components are classes whose fields are the component's state variables. Their handlers are methods with `modifies this`. Pure computations (`useMemo` bodies, validators, formatters) are functions, and their properties are lemmas.

Representation choices:

- A calendar date (`"YYYY-MM-DD"`) is an integer day number `Day`, and an instant is an integer millisecond count `Millis`. "Now" and "today" are parameters.
- The list views test `new Date(t.dueDate) < new Date()`, which compares the due date's UTC midnight with the current instant. This is modelled as `dueDate * DayMs < now`.
- The board compares local midnights, modelled as day numbers.
- JavaScript numbers used as `order` and as hours are `real`. Counts are `nat`.
- Every server call is replaced by parameters: `ok` says whether the request succeeded, and `saved` or `updated` is the record the server returned.

Where the code and the declared types disagree, the model follows the code:

- `Task` carries the `dependencies` list that task creation attaches (App.tsx:175).
- `Log` has the optional `collaboratorIds` that DailyLogsView.tsx:20 reads.
- The settings panel reads `currentUser.settings`, which `User` in types.ts does not declare. It is modelled as a separate `UserSettings` value.

## Model

| member | source | states |
|---|---|---|
| App.Destination | App.tsx:215 | the drop column is sorted ascending by `order` and is a permutation of the tasks with the new status other than the dragged one |
| App.DestinationMembers | App.tsx:215 | a task is in the drop column iff it has the new status and is not the dragged task, whatever its project |
| App.IndexOfId | App.tsx:222 | `findIndex`: a found index holds the id and no earlier entry does; `None` iff no entry has the id |
| App.MoveOrder | App.tsx:217-228 | with no target an order always results; with a target, no order (the handler throws) iff the target is not in the column |
| App.AppendGoesLast | App.tsx:218-220 | dropping at the end gives 1 in an empty column and otherwise an order above every card in the sorted column |
| App.InsertLandsAtTarget | App.tsx:221-227 | dropping before the card at index i gives (order of card i-1, or 0 at the front, + order of card i) / 2; when those differ it lies strictly between them, above every earlier card and below every later one |
| App.SplitsAt | App.tsx:221-227 | in a sorted column a value strictly between card i and its predecessor is above all cards before i and below all cards from i on |
| App.MoveOrderPositive | App.tsx:217-228 | when every order in the column is positive, so is the computed order |
| App.SelfDropIsLost | App.tsx:215-226 | a card dropped with itself as target never finds the target (the column excludes it), so the move does nothing |
| App.MaxOrder | App.tsx:169 | `Math.max(0, ...orders)`: not negative, at least every order, and equal to 0 or to one of them |
| App.NewTaskOrder | App.tsx:169-174 | a new task's order is at least 1, greater than the order of every task of its project, and exactly 1 or one more than some task's order in the project |
| App.ProjectMaxOrder | App.tsx:169 | the largest order among a project's tasks bounds every one of them and is 0 or the order of one of them |
| App.NewTask | App.tsx:170-176 | the new task takes the form's fields, status To Do, no dependencies and the new order; its id is "t" followed by digits that read back as the clock value |
| App.ApplyPatch | App.tsx:191 | `{ ...task, ...updates }`: the id is kept and every field the patch does not supply keeps its value |
| App.ApplyPatchLaws | App.tsx:191 | an empty patch changes nothing; applying a patch twice equals applying it once |
| App.MovePatchSetsStatusAndOrder | App.tsx:230 | the move's update sets exactly the status and the order of the task |
| App.ReplaceTask | App.tsx:193 | the map keeps the length and puts the replacement at every index whose task has the id |
| App.ReplaceTaskLaws | App.tsx:193-196 | replacing by id keeps the length and leaves every other task alone; an unknown id changes nothing; a later replace of the same id overrides an earlier one |
| App.RevertAppendRestores | App.tsx:177-183 | removing the optimistically appended task restores the list exactly when its id was fresh |
| App.DeleteRemovesOnlyThatId | App.tsx:205 | deleting keeps exactly the tasks with another id in their order, and changes nothing for an unknown id |
| App.MergeProject | App.tsx:141 | an edit merge keeps the project's id and progress |
| App.RevertProjectAppendRestores | App.tsx:128-135 | removing the optimistically appended project restores the list when its id was fresh |
| App.MergeProjectById | App.tsx:141 | the map keeps the length and merges the edit into every project with the id |
| App.MergeKeepsOthers | App.tsx:141 | an edit keeps every project's id and progress and changes no project with another id |
| App.NewNotifications | App.tsx:285-292 | one unread notification per recipient, in recipient order, with the sender and message given |
| App.RevertSendRestores | App.tsx:293-303 | dropping the just-sent notifications after a failure restores the old list when their ids were fresh |
| App.MarkAllRead | App.tsx:314 | every notification keeps its place and becomes read iff it was read or is the current user's |
| App.MarkAllReadExactlyMine | App.tsx:314 | exactly the current user's unread notifications change; all of the user's end up read; ids and recipients are kept |
| App.MarkOneRead | App.tsx:324 | every notification keeps its place and becomes read iff it was read or has the id |
| App.FindNotification | App.tsx:319 | `find`: none iff no notification has the id; otherwise the first one with it |
| App.ServerCopy | App.tsx:319 | the fallback after `updated.find`: the first server copy with the notification's id when there is one, otherwise the notification itself |
| App.MergeMarkedAll | App.tsx:317-321 | the merge keeps the length; the other users' notifications come first, in order; after them, position j holds the server copy of the user's j-th notification |
| App.MergeMarkedAllServerCopies | App.tsx:318-320 | after the other users' notifications, the user's j-th notification is replaced by the first server copy with its id, or kept when the server sent none |
| App.MergeMarkedAllKeepsAll | App.tsx:317-321 | with no server copies the merge after mark-all-read is a permutation of the list |
| App.AppContent.constructor | App.tsx:50-117 | the stores hold what the initial fetch loaded; the page is the dashboard and no project is selected |
| App.AppContent.TaskCreate | App.tsx:168-185 | the new task (ToDo, empty dependencies, max order + 1) is appended; on success the saved copy replaces it, on failure it is removed again, which restores the old list when its id was fresh; other stores are unchanged |
| App.AppContent.TaskUpdate | App.tsx:187-201 | an unknown id changes nothing; otherwise the tasks with that id show the first one patched, then the saved copy, or the pre-call snapshot on failure |
| App.AppContent.TaskDelete | App.tsx:203-212 | the task is filtered out, and the snapshot comes back on failure |
| App.AppContent.TaskMove | App.tsx:214-231 | the move happens iff the target is found (or absent) and the dragged id exists; the dragged task then gets the new status and the computed order, or the saved copy, or the snapshot back on failure; otherwise nothing changes |
| App.AppContent.ProjectCreate | App.tsx:122-137 | the new project is appended; the saved copy replaces it on success, and on failure it is removed again (restoring the list when its id was fresh) |
| App.AppContent.ProjectUpdate | App.tsx:139-151 | the edit is merged into the project with that id; the saved copy replaces the project with the returned id, or the snapshot comes back on failure |
| App.AppContent.ProjectDelete | App.tsx:153-166 | the project is filtered out; a successful delete of the selected project clears the selection and goes to the project list; a failure restores the snapshot |
| App.AppContent.SendNotification | App.tsx:284-305 | the new notifications go in front; on success the saved ones lead and the rest lose those ids; on failure the new ones are dropped, restoring the list when their ids were fresh |
| App.AppContent.MarkNotificationAsRead | App.tsx:311-329 | "all" marks the user's notifications and merges the server copies; another id marks that notification; any failure restores the snapshot |
| App.AppContent.MembersForDailyStatus | App.tsx:363-375 | for a manager, exactly the team members on the teams of the projects whose ids belong to projects the manager is on, in user order; for other roles, none |
| App.AppContent.TeamMembersForManager | App.tsx:377-387 | an executive gets every other user; anyone else gets the other users sharing a team with them, in user order |
| App.SampleP1ToDo | data.ts:68-72 | in sample project p1 the ToDo tasks other than t3 are t4 and t13 |
| App.SampleP1Tail | data.ts:70-72 | the ToDo tasks among t3, t4, t13 other than t3 are t4 and t13 |
| App.SampleP2ToDo | data.ts:75-78 | in sample project p2 the only ToDo task is t8 |
| App.SampleP2Tail | data.ts:76-78 | among t6, t7, t8 the only ToDo task is t8 |
| App.SampleP3ToDo | data.ts:81-84 | in sample project p3 the ToDo tasks are t11 and t12 |
| App.SampleP3Tail | data.ts:82-84 | among t10, t11, t12 the ToDo tasks are t11 and t12 |
| App.SampleToDoColumn | data.ts:66-85 | across the sample board the ToDo tasks other than t3 are t4, t13, t8, t11, t12 in fixture order |
| App.SampleColumnInOrder | data.ts:71-84 | those five (orders 10, 20, 30, 40, 50) are already sorted, so sorting keeps them |
| App.SampleDestination | App.tsx:215 | dragging t3 into ToDo on the sample board gives the drop column t4, t13, t8, t11, t12 |
| App.SampleIndexOfT11 | App.tsx:222 | t11 is at index 3 of that column |
| App.SampleDropBeforeT11 | App.tsx:218-227 | dropping t3 before t11 gives order 35 (midpoint of t8 and t11); dropping at the end gives 51 |
| ProjectDetail.Column | components/ProjectDetail.tsx:135 | a column is sorted ascending by `order` and is a permutation of the project's tasks with that status |
| ProjectDetail.ColumnMembers | components/ProjectDetail.tsx:330 | a task is in a column iff it belongs to the project and has that column's status |
| ProjectDetail.ColumnsPartition | components/ProjectDetail.tsx:330-384 | the four columns together hold each project task exactly once, and their sizes add up to the number of project tasks |
| ProjectDetail.ColumnStable | components/ProjectDetail.tsx:135 | cards with equal `order` keep their relative order in the column |
| ProjectDetail.CeilDiv | components/ProjectDetail.tsx:164 | `Math.ceil(a / b)` for a positive divisor: the least r with a <= r * b |
| ProjectDetail.DaysUntil | components/ProjectDetail.tsx:163-164 | the day difference between the due day and today, exactly |
| ProjectDetail.DueFlags | components/ProjectDetail.tsx:161-167 | overdue iff due before today and not done; due soon iff due today to two days ahead and not done; never both; a done task has neither |
| ProjectDetail.Closest | components/ProjectDetail.tsx:238-246 | none iff the cursor is above no card's midpoint; otherwise a card whose midpoint is below the cursor, the nearest such, and strictly nearer than every earlier one |
| ProjectDetail.DropTargetId | components/ProjectDetail.tsx:234-249 | the target is exactly the id of the card `Closest` picks (the nearest card whose midpoint is below the cursor); none when there is no such card or its id is empty |
| ProjectDetail.DropTargetTieGoesFirst | components/ProjectDetail.tsx:241 | of two cards at the same nearest offset, the later one in DOM order is never chosen |
| ProjectDetail.Board.constructor | components/ProjectDetail.tsx:194-196 | no card dragged, no column highlighted, no task selected |
| ProjectDetail.Board.DragStart | components/ProjectDetail.tsx:265-268 | the payload is the task id and that task is marked dragged; nothing else changes |
| ProjectDetail.Board.DragEnd | components/ProjectDetail.tsx:270-273 | the drag mark and the highlight are cleared |
| ProjectDetail.Board.DragEnter | components/ProjectDetail.tsx:275-278 | the entered column is highlighted |
| ProjectDetail.Board.Drop | components/ProjectDetail.tsx:251-259 | a move towards the drop target is requested iff the payload holds a task id; the highlight is cleared either way |
| ProjectDetail.Board.SelectTask | components/ProjectDetail.tsx:341 | a card click selects that task |
| ProjectDetail.Board.CloseTask | components/ProjectDetail.tsx:413 | closing the detail clears the selection |
| ProjectDetail.TaskComments | components/ProjectDetail.tsx:416 | the detail's comments are sorted by timestamp and are a permutation of that task's comments |
| ProjectDetail.TaskCommentsExact | components/ProjectDetail.tsx:416 | a comment is passed iff it belongs to the selected task, and they come oldest first |
| Reporting.Bump | components/ReportingView.tsx:29 | one increment adds at most one entry |
| Reporting.BumpValue | components/ReportingView.tsx:29 | an increment adds one to that status's count and leaves the other counts alone |
| Reporting.BumpTotal | components/ReportingView.tsx:29 | an increment adds one to the total |
| Reporting.BumpNames | components/ReportingView.tsx:29 | after an increment, the statuses with an entry are the old ones plus that status |
| Reporting.BumpKeepsShape | components/ReportingView.tsx:29 | an increment keeps the statuses distinct and the counts positive |
| Reporting.CountFromShape | components/ReportingView.tsx:28-31 | the fold keeps the statuses distinct and the counts positive |
| Reporting.CountFromValue | components/ReportingView.tsx:28-31 | the fold adds the number of projects in a status to that status's count |
| Reporting.CountFromTotal | components/ReportingView.tsx:28-31 | the fold adds one to the total per project |
| Reporting.CountFromNames | components/ReportingView.tsx:28-31 | the fold creates an entry for exactly the statuses that occur |
| Reporting.ValueOfEntry | components/ReportingView.tsx:33 | with distinct statuses, an entry's value is the count of its status |
| Reporting.ProjectStatusData | components/ReportingView.tsx:27-34 | the slices name distinct statuses, each count is positive, and the counts sum to the number of projects |
| Reporting.ProjectStatusDataCounts | components/ReportingView.tsx:27-34 | one positive slice per status that occurs, holding the number of projects in it, and the slices sum to the number of projects |
| Reporting.TasksByProjectData | components/ReportingView.tsx:36-50 | one bar per project, in project order, named after it, whose To Do, In Progress, Review and Done counts are exactly the numbers of that project's tasks in each status |
| Reporting.TasksByProjectSums | components/ReportingView.tsx:37-49 | a project's four counts add up to the number of its tasks, and any status that none of its tasks has counts 0 |
| Reporting.Workloads | components/ReportingView.tsx:54-57 | one entry per user, in user order, holding that user's open-task count |
| Reporting.TeamWorkloadData | components/ReportingView.tsx:53-59 | one entry per user, a permutation of the per-user workloads, ordered by open tasks from most to fewest |
| Reporting.TeamWorkloadSorted | components/ReportingView.tsx:53-59 | the workload list has one entry per user, is a permutation of the per-user entries, and is non-increasing in open tasks |
| Reporting.TeamWorkloadStable | components/ReportingView.tsx:58 | users with equal open-task counts stay in user order |
| Reporting.TeamWorkloadEntries | components/ReportingView.tsx:53-59 | an entry is listed iff it is some user's own workload |
| Reporting.FindUser | components/ReportingView.tsx:24 | a found user is the first user in the list with the id; none iff no user has it |
| Reporting.SelectedUser | components/ReportingView.tsx:22-25 | "all" selects nobody; any other id selects the user with that id, if any |
| Reporting.UserStatsAddUp | components/ReportingView.tsx:62-76 | for a user, open plus completed tasks equal the tasks assigned to them; overdue tasks are no more than open ones; active projects are no more than all non-completed ones |
| Reporting.OverviewStatsBounds | components/ReportingView.tsx:77-85 | the overview's total is the number of projects; active plus completed projects equal all projects; overdue <= open <= all tasks |
| Reporting.DisplayedStats | components/ReportingView.tsx:61-87 | for a selected user, the four cards hold the user's active projects they have a task in, their open, overdue and Done tasks; with no selection, all projects, non-completed projects, open tasks and overdue tasks |
| Reporting.UserProjectIds | components/ReportingView.tsx:68-69 | filtering projects by the set of the user's task project ids keeps exactly the non-completed projects the user has a task in |
| Reporting.UnknownUserShowsOverview | components/ReportingView.tsx:22-25 | "all" and an id no user has both show the overview |
| Queries.OpenAndDoneSplit | components/ReportingView.tsx:63-66 | open and done tasks together are all the tasks |
| Queries.OverdueAreOpen | components/ReportingView.tsx:64-65 | the overdue tasks are a sub-multiset of the open ones, so never more |
| Queries.StatusSplit | components/ReportingView.tsx:39-48 | the four status filters together hold each task exactly once |
| Dashboard.Counts | components/Dashboard.tsx:27-30 | the total is the number of projects, and completed + on-track + at-risk never exceed it |
| Dashboard.CountsBounded | components/Dashboard.tsx:28-30 | the completed, on-track and at-risk filters together hold at most all the projects, since no project has two statuses |
| Dashboard.UserProjects | components/Dashboard.tsx:32 | a project is listed iff the user is on its team, and the list keeps project order |
| Dashboard.OpenByDue | components/Dashboard.tsx:33-35 | the user's open tasks, sorted by due date, as a permutation |
| Dashboard.UpcomingTasks | components/Dashboard.tsx:33-36 | a prefix of the user's open tasks by due date, holding five of them, or all when there are fewer |
| Dashboard.UpcomingTasksPrefix | components/Dashboard.tsx:36 | at most five tasks, a prefix of the user's open tasks by due date, and all of them when there are fewer than five |
| Dashboard.UpcomingTasksMineAndOpen | components/Dashboard.tsx:34 | every upcoming task is assigned to the user and not done |
| Dashboard.UpcomingTasksEarliest | components/Dashboard.tsx:35-36 | the upcoming tasks are in due-date order, and none is due later than any open task left out |
| Dashboard.ProjectHoursData | components/Dashboard.tsx:38-42 | one bar per project, in order, named after it, holding the project's total logged hours |
| Dashboard.HoursOf | components/Dashboard.tsx:39-40 | a project with no log gets 0 hours |
| Dashboard.HoursOfAppend | components/Dashboard.tsx:39-40 | no logs give 0 hours, and a new log adds its hours exactly to its own project's total |
| Dashboard.HoursOfNonNegative | components/Dashboard.tsx:40 | totals are never negative when no log is |
| TeamView.OpenTasks | components/TeamView.tsx:16-17 | a task is open on the card iff it is the member's and not done |
| TeamView.OverdueTasks | components/TeamView.tsx:18 | a task is overdue iff it is the member's, not done and past its due date's UTC midnight; the overdue tasks are a sub-multiset of the open ones |
| TeamView.MemberCardCounts | components/TeamView.tsx:16-18 | a task is open on the card iff it is the member's and not done; overdue iff, in addition, it is past due; overdue <= open <= the member's tasks |
| TeamView.HoursOnAppend | components/TeamView.tsx:29-33 | a log adds its hours to a day exactly when it is the member's and dated that day |
| TeamView.Last7DaysActivity | components/TeamView.tsx:20-38 | seven bars for today-6 up to today, in ascending order, each holding the member's hours logged that day; other users' logs and days outside the window are ignored |
| TeamView.HoursOnNoLogs | components/TeamView.tsx:26 | a day on which the member logged nothing reads 0 |
| TeamView.HoursOnNonNegative | components/TeamView.tsx:31 | a day's hours are never negative when no log is |
| MyTasks.FormatTaskStatus | components/MyTasksView.tsx:20-28 | every status has a non-empty label, which equals the status value exactly for Review and Done |
| MyTasks.FormatTaskStatusInjective | components/MyTasksView.tsx:20-28 | different statuses get different labels |
| MyTasks.Filters.constructor | components/MyTasksView.tsx:31-33 | the filters start unset, so none is active |
| MyTasks.Filters.Clear | components/MyTasksView.tsx:54-60 | clearing resets the three filters, after which none is active |
| MyTasks.Filters.InactiveShowsAllMine | components/MyTasksView.tsx:40-60 | while `filtersAreActive` is false the table holds exactly my tasks |
| MyTasks.Filters.SetProject | components/MyTasksView.tsx:31 | setting the project filter changes only it, and activity follows the new values |
| MyTasks.Filters.SetStatus | components/MyTasksView.tsx:32 | setting the status filter changes only it |
| MyTasks.Filters.SetDueDate | components/MyTasksView.tsx:33 | setting the due-date filter changes only it |
| MyTasks.Filters.Rows | components/MyTasksView.tsx:40-50 | the rows under the current filters, in due-date order |
| MyTasks.MyTaskRows | components/MyTasksView.tsx:40-50 | the listed tasks are sorted by due date and are a permutation of the tasks passing the filter |
| MyTasks.MyTaskRowsExact | components/MyTasksView.tsx:42-47 | a task is listed iff it is mine and passes every set filter; "all" and the empty date disable a filter |
| MyTasks.StatusFilterExact | components/MyTasksView.tsx:45 | filtering by a status's value keeps exactly my tasks with that status |
| MyTasks.DefaultFiltersShowAllMine | components/MyTasksView.tsx:40-50 | with every filter at its default, all my tasks are listed |
| MyTasks.UserProjectsWithTasks | components/MyTasksView.tsx:35-38 | the menu keeps project order, and every project on it has one of my tasks |
| MyTasks.UserProjectsWithTasksExact | components/MyTasksView.tsx:35-38 | a project is on the menu iff one of my tasks belongs to it |
| MyTasks.DueTodayOverdueInListOnly | components/MyTasksView.tsx:112 | during the due day (after its UTC midnight) an open task is red in the list but not overdue on the board |
| DailyLogs.SortedLogs | components/DailyLogsView.tsx:79-81 | the sorted logs are a permutation of the logs, newest date first |
| DailyLogs.SortedLogsStable | components/DailyLogsView.tsx:80 | logs of the same day keep their original order |
| DailyLogs.FilteredLogsExact | components/DailyLogsView.tsx:83-90 | a log is shown iff it passes every set filter (date, project, user) |
| DailyLogs.FilteredLogs | components/DailyLogsView.tsx:83-90 | the shown logs are newest first and a sub-multiset of all the logs |
| DailyLogs.DefaultFiltersShowAll | components/DailyLogsView.tsx:85-87 | with no filter set, the shown logs are the sorted logs |
| DailyLogs.UserMapGet | components/DailyLogsView.tsx:92 | a lookup finds a user with that id iff one exists |
| DailyLogs.UserMapGetLastWins | components/DailyLogsView.tsx:92 | with repeated ids the map holds the last user with that id |
| DailyLogs.Collaborators | components/DailyLogsView.tsx:19-21 | missing collaborator ids give no avatars, and every avatar is a known user |
| DailyLogs.Resolve | components/DailyLogsView.tsx:20 | every resolved user is known and has a listed id |
| DailyLogs.ResolveSpec | components/DailyLogsView.tsx:20 | one avatar per known id, in the listed order, each being that id's user; unknown ids are dropped |
| DailyLogs.Filters.constructor | components/DailyLogsView.tsx:75-77 | the filters start unset |
| DailyLogs.Filters.Clear | components/DailyLogsView.tsx:122-128 | the clear button resets date, project and user, after which it is hidden |
| DailyLogs.Filters.Shown | components/DailyLogsView.tsx:83-90 | with no filter set, every log is shown newest first |
| ProjectCard.TeamMembers | components/ProjectCard.tsx:37 | a user is shown iff their id is on the project's team, in user order |
| ProjectCard.OpenTaskCount | components/ProjectCard.tsx:38 | the open-task count is at most the number of tasks |
| ProjectCard.OpenTaskCountSpec | components/ProjectCard.tsx:38 | the open-task count plus the done count is the number of the project's tasks |
| ProjectCard.FilterCommutesInto | components/ProjectCard.tsx:38 | the one-pass filter equals filtering by project and then by open status |
| ProjectCard.Avatars | components/ProjectCard.tsx:64-76 | at most four avatars, a prefix of the team; a "+n" badge iff more than four members, with n = count - 4 |
| ProjectCard.StatusColor | components/ProjectCard.tsx:14-23 | every status has a non-empty badge colour; grey exactly for On Hold |
| ProjectCard.ProgressBarColor | components/ProjectCard.tsx:25-34 | every status has a non-empty bar colour; the accent colour exactly for On Track and Completed |
| ProjectCard.StatusColorInjective | components/ProjectCard.tsx:14-23 | different statuses get different badge colours |
| Login.FindByEmail | components/LoginScreen.tsx:41 | none iff no user's e-mail matches ignoring case; otherwise the first matching user |
| Login.Attempt | components/LoginScreen.tsx:27-50 | a signed-in user is in the list and has the typed e-mail up to case, and only when both fields are filled and the e-mail matches the pattern; a rejection carries one of the three error messages |
| Login.BlankFieldsRejected | components/LoginScreen.tsx:31-34 | a blank e-mail or password gives the required-fields error |
| Login.MalformedEmailRejected | components/LoginScreen.tsx:36-39 | filled fields with an e-mail not matching the pattern give the format error |
| Login.AttemptSucceedsIff | components/LoginScreen.tsx:31-49 | a login succeeds iff both fields are filled, the pattern matches and some user's e-mail matches ignoring case; the user is then the first match; otherwise a lookup failure gives the credentials error |
| Login.PasswordNotCompared | components/LoginScreen.tsx:41-46 | two filled passwords behave alike: the password is never compared |
| Login.LoginScreen.constructor | components/LoginScreen.tsx:23-25 | empty fields, no error |
| Login.LoginScreen.SetEmail | components/LoginScreen.tsx:23 | typing changes only the e-mail |
| Login.LoginScreen.SetPassword | components/LoginScreen.tsx:24 | typing changes only the password |
| Login.LoginScreen.HandleLoginAttempt | components/LoginScreen.tsx:27-50 | a success hands the matched user to `onLogin` with no error; a rejection sets that guard's error and signs nobody in |
| RegisterMember.Validate | components/RegisterMemberModal.tsx:34-47 | no error iff name and e-mail are filled, the e-mail matches the pattern and no user has it ignoring case |
| RegisterMember.ValidatePrecedence | components/RegisterMemberModal.tsx:34-47 | the checks run required, then format, then duplicate, and the first failure decides |
| RegisterMember.CaseVariantIsDuplicate | components/RegisterMemberModal.tsx:44 | an e-mail differing from an existing one only in letter case is a duplicate |
| RegisterMember.RegisterForm.constructor | components/RegisterMemberModal.tsx:13-16 | empty fields, role Member, no error |
| RegisterMember.RegisterForm.Reset | components/RegisterMemberModal.tsx:18-23 | `resetForm` empties the fields, sets the role to Member and clears the error |
| RegisterMember.RegisterForm.HandleSubmit | components/RegisterMemberModal.tsx:30-51 | on success the untrimmed name, e-mail and role go out and the form resets; otherwise the first failing guard's error is shown and nothing is sent |
| ProjectModal.Labels | components/ProjectModal.tsx:54-56 | one label per missing field: label i is the name of field i |
| ProjectModal.MissingFields | components/ProjectModal.tsx:53-56 | Project Name, Start Date and End Date are listed iff missing, in that fixed order |
| ProjectModal.MissingFieldsError | components/ProjectModal.tsx:59 | the message starts with "Please fill out required fields: " and ends with a full stop; one missing field gives exactly its label between them |
| ProjectModal.TwoMissingMessage | components/ProjectModal.tsx:59 | two missing fields are listed with ", " between their labels |
| ProjectModal.AllMissingMessage | components/ProjectModal.tsx:53-60 | with all three fields missing, the error reads the prefix, then Project Name, Start Date and End Date separated by ", ", then a full stop |
| ProjectModal.InRankOrder | components/ProjectModal.tsx:53-56 | the three pushes give their fields in form order |
| ProjectModal.Validate | components/ProjectModal.tsx:49-71 | no error iff the name is filled, both dates are set, the trimmed name is at least 3 UTF-16 code units long (the unit `.length` counts) and the start is not after the end |
| ProjectModal.ValidatePrecedence | components/ProjectModal.tsx:58-71 | missing fields are reported first and together, then a trimmed name under 3 UTF-16 code units, then the date order; equal dates pass |
| ProjectModal.AstralNameLongEnough | components/ProjectModal.tsx:63 | "a" followed by an emoji beyond U+FFFF measures 3 code units and passes the length guard |
| ProjectModal.OnlyEndDateMissing | components/ProjectModal.tsx:53-60 | with only the end date missing, the error names just that field |
| ProjectModal.PotentialMembers | components/ProjectModal.tsx:93 | exactly the members and managers can be put on a team, in user order |
| ProjectModal.ProjectForm.constructor | components/ProjectModal.tsx:14-20 | empty form, On Track, empty team, no error |
| ProjectModal.ProjectForm.Open | components/ProjectModal.tsx:22-41 | editing copies the project's fields; creating starts empty with today's start date and no end date; the error is cleared either way |
| ProjectModal.ProjectForm.HandleTeamChange | components/ProjectModal.tsx:43-47 | a listed id is removed wherever it occurs; an absent one is appended at the end |
| ProjectModal.ProjectForm.HandleSubmit | components/ProjectModal.tsx:49-87 | a failing check sets its error and submits nothing (the name length counted in UTF-16 code units); otherwise the untrimmed form data is submitted, with the edited project's id in edit mode and without one in create mode |
| Seqs.SortBy | components/ReportingView.tsx:58 | the stable sort keeps the length and the elements and orders them by ascending key |
| Seqs.Toggle | components/ProjectModal.tsx:45 | toggling a present id leaves a subsequence of the list with every count of that id at 0 and every other id at its old count; toggling an absent one appends it |
| Seqs.ToggleTwice | components/ProjectModal.tsx:43-47 | toggling an absent id twice restores the list; a present one ends up once, at the end |
| Seqs.FilterSubseq | components/ProjectModal.tsx:45 | filtering keeps a subsequence of the list |
| Seqs.FilterOtherCounts | components/ProjectModal.tsx:45 | filtering out one value drops all its copies and keeps every other value's count |
| SendNotification.Ids | components/SendNotificationModal.tsx:27 | the team's ids in team order |
| SendNotification.Validate | components/SendNotificationModal.tsx:35-46 | no error iff the message is not blank and someone is selected |
| SendNotification.ValidatePrecedence | components/SendNotificationModal.tsx:35-46 | both missing gives the combined error, then a missing message, then missing recipients |
| SendNotification.NotificationForm.constructor | components/SendNotificationModal.tsx:13-15 | empty message, nobody selected, no error |
| SendNotification.NotificationForm.HandleMemberSelection | components/SendNotificationModal.tsx:17-21 | a selected member is removed and an unselected one appended at the end |
| SendNotification.NotificationForm.HandleSelectAll | components/SendNotificationModal.tsx:23-29 | a selection as long as the team is cleared; otherwise the whole team is selected in team order, and the box is then ticked iff the team is non-empty |
| SendNotification.NotificationForm.HandleSubmit | components/SendNotificationModal.tsx:31-52 | on success the trimmed message goes to the selection and the form resets; otherwise the first failing guard's error is shown |
| SendNotification.SelectAllTwice | components/SendNotificationModal.tsx:23-29 | from an empty selection, select-all selects the whole team and a second press clears it |
| CreateTask.ActiveProjects | components/CreateTaskModal.tsx:22 | a project is offered iff it is not completed |
| CreateTask.FindProject | components/CreateTaskModal.tsx:25 | a found project is the first project in the list with the id; none iff no project has it |
| CreateTask.TeamMembers | components/CreateTaskModal.tsx:24-28 | no project gives no members; otherwise exactly the users on its team |
| CreateTask.SyncedAssignee | components/CreateTaskModal.tsx:48-57 | an assignee on the team is kept; an empty team gives ""; otherwise the assignee ends up on the team |
| CreateTask.InitialProjectId | components/CreateTaskModal.tsx:33 | a non-empty default project wins; otherwise the first active project, or "" when there is none |
| CreateTask.InitialProjectIsActive | components/CreateTaskModal.tsx:33 | without a usable default, the initial project is a non-completed one whenever there is one |
| CreateTask.TaskForm.constructor | components/CreateTaskModal.tsx:15-20 | empty form, with the default project when one is given |
| CreateTask.TaskForm.Reset | components/CreateTaskModal.tsx:30-40 | title, description and error cleared, the initial project chosen, due a week from today; the assignee is not touched |
| CreateTask.TaskForm.SyncAssignee | components/CreateTaskModal.tsx:48-57 | afterwards the assignee is on the selected project's team, or the team is empty and the assignee is "" |
| CreateTask.TaskForm.HandleSubmit | components/CreateTaskModal.tsx:60-75 | refused with the required-fields error iff the title, assignee, due date or project is empty (the title untrimmed); otherwise exactly those fields and the description are submitted |
| Settings.ApplyChange | components/SettingsView.tsx:18-29 | exactly the named reminder field takes the new value; every other setting is unchanged |
| Settings.SettingsPanel.constructor | components/SettingsView.tsx:10-12 | the panel starts from the user's settings, not saved, no error |
| Settings.SettingsPanel.HandleSettingChange | components/SettingsView.tsx:18-29 | the settings become the changed copy; nothing else changes |
| Settings.SettingsPanel.HandleSave | components/SettingsView.tsx:31-43 | refused iff Telegram is on with a non-empty handle lacking '@', which shows the error, clears `isSaved` and sends nothing; otherwise the settings go out and `isSaved` is set |
| Settings.SaveAccepted | components/SettingsView.tsx:34 | Telegram off, an empty or missing handle, or a handle starting with '@' all save |
| Settings.HandleWithoutAtFails | components/SettingsView.tsx:18-38 | after entering a handle without '@' and switching Telegram on, saving is refused |
| TaskDetail.FormatRelativeTime | components/TaskDetailModal.tsx:25-31 | the "just now" label is never produced |
| TaskDetail.Render | components/TaskDetailModal.tsx:25-30 | each label is the count followed by its unit: " days ago", " hours ago", " minutes ago", or "1 day ago" and "1 hour ago", the digits reading back as the count |
| TaskDetail.OneThenUnit | components/TaskDetailModal.tsx:26-28 | "1" followed by a unit reads as the count 1 with that unit |
| TaskDetail.Minutes | components/TaskDetailModal.tsx:19-21 | whole minutes elapsed: the elapsed milliseconds floored by 60000, the same as flooring the whole seconds by 60 |
| TaskDetail.Hours | components/TaskDetailModal.tsx:22 | whole hours elapsed: the elapsed milliseconds floored by 3600000, the same as flooring the minutes by 60 |
| TaskDetail.Days | components/TaskDetailModal.tsx:23 | whole days elapsed: the elapsed milliseconds floored by 86400000, the same as flooring the hours by 24 |
| TaskDetail.FormatRelativeTimeBuckets | components/TaskDetailModal.tsx:19-30 | days of two or more give "N days ago", one day "1 day ago", then hours, then minutes the same way; everything else, the future included, is "a minute ago" |
| TaskDetail.DivMonotone | components/TaskDetailModal.tsx:21-23 | floored quotients reach 1 exactly at the divisor and are monotone across the unit steps |
| TaskDetail.FutureIsAMinuteAgo | components/TaskDetailModal.tsx:29-30 | a timestamp in the future reads "a minute ago" |
| TaskDetail.CommentBox.constructor | components/TaskDetailModal.tsx:36 | the comment box starts empty |
| TaskDetail.CommentBox.HandleCommentSubmit | components/TaskDetailModal.tsx:41-47 | a comment is posted iff it is not blank; the trimmed text is posted for this task and the box is cleared; a blank one changes nothing |
| Helpers.FormatRelativeTime | utils/helpers.ts:1-18 | minutes are below 60, hours from 1 to 23, and days from 1 to 7 |
| Helpers.Render | utils/helpers.ts:6-17 | "just now"; the count followed by "m ago", "h ago" or "d ago", its digits reading back as the count; or the date string |
| Helpers.FormatRelativeTimeBuckets | utils/helpers.ts:4-17 | under 5 s (the future included) is "just now"; then "Nm ago" below an hour (5-59 s give 0m), "Nh ago" below a day, "Nd ago" up to 7 days, and the date string after that, each with the floored count |
| Helpers.UnitSteps | utils/helpers.ts:4-14 | flooring seconds, then minutes, then hours equals flooring the milliseconds by the whole unit |
| Helpers.NestedDiv | utils/helpers.ts:8-14 | flooring twice by positive divisors is flooring once by their product |
| Helpers.FormatRelativeTimeMonotone | utils/helpers.ts:6-17 | an older timestamp never gets a finer label |
| Sidebar.PageKey | App.tsx:437-449 | every entry sets a non-empty page key, and the app's page switch shows that entry's page for it |
| Sidebar.PageKeyInjective | components/Sidebar.tsx:65-69 | two entries set the same key iff they are the same entry |
| Sidebar.NavItemsExact | components/Sidebar.tsx:63-71 | an entry is shown iff the role is among its roles |
| Sidebar.NavItems | components/Sidebar.tsx:63-72 | a manager sees all five entries in declaration order, a team member everything but Reporting, an executive Dashboard, Projects and Reporting |
| Sidebar.NavBar.constructor | components/Sidebar.tsx:55 | the mobile menu starts closed |
| Sidebar.NavBar.SetMobileMenu | components/Sidebar.tsx:55 | the mobile menu is opened or closed |
| Sidebar.NavBar.HandleNav | components/Sidebar.tsx:57-61 | the page is set, the selected project cleared and the mobile menu closed; the stores are untouched |
| Text.Trim | components/LoginScreen.tsx:31 | `trim` leaves no white space at either end, and the input is the result with only white space before and after it |
| Text.SliceParts | components/LoginScreen.tsx:31 | stripping white space from the front and then from the back leaves the input padded by white space around the result |
| Text.TrimStart | components/LoginScreen.tsx:31 | the result is a suffix of the input not starting with white space, and what was cut is all white space |
| Text.TrimEnd | components/LoginScreen.tsx:31 | the result is a prefix of the input not ending with white space, and what was cut is all white space |
| Text.BlankIffAllSpace | components/LoginScreen.tsx:31 | `!s.trim()` holds exactly when every character is white space |
| Text.Lower | components/LoginScreen.tsx:41 | `toLowerCase` keeps the length and every non-letter, maps each upper-case letter to the letter 32 code points above it, and leaves no upper-case letter |
| Text.EmailLike | components/LoginScreen.tsx:36 | a matching text has at least five characters, an '@' and a '.' |
| Text.EmailLikeUnanchored | components/LoginScreen.tsx:36 | the pattern test is unanchored: text around a match never turns it into a non-match |
| Text.EmailLikeNeedsAt | components/LoginScreen.tsx:36 | an e-mail without '@' never matches |
| Text.Join | components/ProjectModal.tsx:59 | joining no items gives the empty string, and one item gives that item |
| Text.JoinSnoc | components/ProjectModal.tsx:59 | joining a non-empty list with one more item appends the separator and that item |
| Text.JoinThree | components/ProjectModal.tsx:59 | three items join as the first, separator, second, separator, third |
| Text.NatToString | utils/helpers.ts:9 | a number prints as at least one decimal digit, with no leading zero, and the digits read back as the number |
| Text.NumberThenUnit | utils/helpers.ts:9-15 | a printed number followed by a unit reads as that number with that unit |
| Text.Utf16Length | components/ProjectModal.tsx:63 | `.length`: one code unit per character up to U+FFFF and two beyond, so between the character count and twice it, and exactly it when no character lies beyond U+FFFF |
| Text.Utf16LengthConcat | components/ProjectModal.tsx:63 | the code-unit length of a concatenation is the sum of the lengths |
| Types.StatusValue | types.ts:44-49 | each status's string value |
| Types.StatusValueInjective | types.ts:44-49 | distinct statuses have distinct values |

## Left out

- Server, network and persistence (`apiCall`, `fetchData`, the backend): every request outcome is the `ok` parameter, and the returned record is `saved` or `updated`.
- `handleLogSubmit`, `handleCommentAdd` and `handleRegisterMember` in App.tsx: they are the same optimistic-append pattern as task creation, and they are not modelled separately.
- `handleUpdateUserSettings` and `handleUpdateUserProfile` in App.tsx are not modelled.
- The log submission dialog: its only real check is float parsing of the hours text.
- Clock and calendar: `Date`, time zones, `toISOString` and `toLocaleDateString` are left out. This includes the weekday labels of the activity chart and the date string of the shared formatter, which stays abstract.
- `DaysUntil`: does not model a daylight-saving day of 23 or 25 hours; the board's local midnights are exactly one day apart.
- JavaScript number precision: `order` and hours are exact reals, so midpoint precision running out is not modelled.
- `Text.Lower`: folds ASCII letters only; `toLowerCase` also folds non-ASCII letters. (`IsSpace`, by contrast, is the whole ECMAScript white-space and line-terminator set, every `Zs` character included.)
- DOM geometry: the cards' boxes are an input sequence of (id, top, height), not `getBoundingClientRect`.
- React scheduling: handlers run as sequential steps; batching and stale closures are not modelled.
- Timers: the three-second reset of `isSaved` in the settings panel, and toasts.
- Rendering and styling: badge classes other than the two colour functions, such as the board's status colours, are not modelled.
- Invalid dates: an empty or malformed date string becomes `None`, and comparisons of invalid `Date` objects are not modelled.
- AuthGate, Header, Footer, Toast, ProjectsView and the AI summary service are not part of this model.

/** A project tile (components/ProjectCard.tsx): its team, its open-task count, the
    avatar row and the status colours. */
module ProjectCard {
  import opened Wrappers
  import opened Seqs
  import opened Types
  import opened Queries

  function OnTeam(p: Project): User -> bool
  {
    (u: User) => u.id in p.team
  }

  /** `teamMembers`, in user order. */
  function TeamMembers(users: seq<User>, p: Project): (r: seq<User>)
    ensures forall u :: u in r <==> u in users && u.id in p.team
    ensures Subseq(r, users)
  {
    FilterMembers(users, OnTeam(p));
    FilterSubseq(users, OnTeam(p));
    Filter(users, OnTeam(p))
  }

  function OpenOf(p: Project): Task -> bool
  {
    (t: Task) => t.projectId == p.id && t.status != Done
  }

  /** `openTasks`. */
  function OpenTaskCount(tasks: seq<Task>, p: Project): (r: nat)
    ensures r <= |tasks|
  {
    |Filter(tasks, OpenOf(p))|
  }

  /** The count is the project's tasks minus its done ones. */
  lemma OpenTaskCountSpec(tasks: seq<Task>, p: Project)
    ensures OpenTaskCount(tasks, p) + |Filter(Filter(tasks, OfProject(p.id)), HasStatus(Done))| == |Filter(tasks, OfProject(p.id))|
  {
    var mine := Filter(tasks, OfProject(p.id));
    OpenAndDoneSplit(mine);
    FilterCommutesInto(tasks, p);
  }

  lemma FilterCommutesInto(tasks: seq<Task>, p: Project)
    ensures Filter(tasks, OpenOf(p)) == Filter(Filter(tasks, OfProject(p.id)), IsOpen())
  {
    FilterFused(tasks, OfProject(p.id), IsOpen(), OpenOf(p));
  }

  /** The avatars and the "+n" badge under the tiles. */
  datatype AvatarRow = AvatarRow(shown: seq<User>, overflow: Option<nat>)

  function Avatars(members: seq<User>): (r: AvatarRow)
    ensures |r.shown| <= 4 && r.shown <= members
    ensures r.overflow.Some? <==> |members| > 4
    ensures r.overflow.Some? ==> r.overflow.value == |members| - 4 && |r.shown| + r.overflow.value == |members|
    ensures r.overflow.None? ==> r.shown == members
  {
    AvatarRow(Take(members, 4), if |members| > 4 then Some(|members| - 4) else None)
  }

  /** `getStatusColor`. */
  function StatusColor(s: ProjectStatus): (r: string)
    ensures r != []
    ensures s == OnHold <==> r == "bg-gray-100 text-gray-800"
  {
    match s
    case OnTrack => "bg-green-100 text-green-800"
    case AtRisk => "bg-yellow-100 text-yellow-800"
    case OffTrack => "bg-red-100 text-red-800"
    case OnHold => "bg-gray-100 text-gray-800"
    case Completed => "bg-brand-light text-brand-primary"
  }

  /** `getProgressBarColor`: on-track and completed projects share the accent colour. */
  function ProgressBarColor(s: ProjectStatus): (r: string)
    ensures r != []
    ensures r == "bg-brand-accent" <==> s == OnTrack || s == Completed
  {
    match s
    case OnTrack => "bg-brand-accent"
    case AtRisk => "bg-yellow-500"
    case OffTrack => "bg-red-500"
    case OnHold => "bg-gray-500"
    case Completed => "bg-brand-accent"
  }

  /** Each status has its own badge colour. */
  lemma StatusColorInjective(s: ProjectStatus, t: ProjectStatus)
    ensures StatusColor(s) == StatusColor(t) <==> s == t
  {
  }
}

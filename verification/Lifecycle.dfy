/**
 Videos, review assignments, manual evaluations and the cached counters of tasks and projects, under
 the service operations that change them, each run undisturbed. A refused operation changes nothing,
 so `Apply` is total and a history is any sequence of operations.
 */
module Lifecycle {
  import opened Wrappers
  import opened EvaluationStatus

  type VideoId = nat
  type TaskId = nat
  type ProjectId = nat
  type ScorerId = nat
  type Score = int  // hundredths of a point

  datatype Video = Video(
    task: Option<TaskId>, ready: bool,
    manual: ManualStatus, ai: AiStatus, overall: OverallStatus,
    manualScore: Option<Score>, aiScore: Option<Score>,
    assignedAt: Option<Time>, completedAt: Option<Time>, submittedReviews: nat)

  datatype ReviewStatus = ReviewPending | ReviewInProgress | ReviewSubmitted

  /** The single review of a video; the video's id is its key. */
  datatype Assignment = Assignment(
    task: TaskId, scorer: ScorerId, status: ReviewStatus,
    assignedAt: Time, startedAt: Option<Time>, submittedAt: Option<Time>)

  /** A manual evaluation row; `video` is the assignment it belongs to. */
  datatype Manual = Manual(
    video: VideoId, scorer: ScorerId, submitted: bool, total: Score,
    startedAt: Time, submittedAt: Option<Time>)

  datatype Stats = Stats(total: nat, completed: nat)

  datatype Task = Task(project: ProjectId, stats: Stats)

  datatype Db = Db(
    now: Time,
    videos: map<VideoId, Video>,
    assignments: map<VideoId, Assignment>,
    manuals: seq<Manual>,
    tasks: map<TaskId, Task>,
    projects: map<ProjectId, Stats>)

  function Empty(): Db { Db(0, map[], map[], [], map[], map[]) }

  // ---- Counters

  type Videos = map<VideoId, Video>
  type Tasks = map<TaskId, Task>

  predicate InTask(v: Video, t: TaskId) { v.ready && v.task == Some(t) }

  predicate InProject(tasks: Tasks, v: Video, p: ProjectId) {
    v.ready && v.task.Some? && v.task.value in tasks && tasks[v.task.value].project == p
  }

  predicate Done(v: Video) { v.overall == OverallCompleted }

  function TaskReady(videos: Videos, t: TaskId): set<VideoId> { set v | v in videos && InTask(videos[v], t) }

  function TaskDone(videos: Videos, t: TaskId): set<VideoId> {
    set v | v in videos && InTask(videos[v], t) && Done(videos[v])
  }

  function ProjectReady(videos: Videos, tasks: Tasks, p: ProjectId): set<VideoId> {
    set v | v in videos && InProject(tasks, videos[v], p)
  }

  function ProjectDone(videos: Videos, tasks: Tasks, p: ProjectId): set<VideoId> {
    set v | v in videos && InProject(tasks, videos[v], p) && Done(videos[v])
  }

  function TaskStats(videos: Videos, t: TaskId): Stats { Stats(|TaskReady(videos, t)|, |TaskDone(videos, t)|) }

  function ProjectStats(videos: Videos, tasks: Tasks, p: ProjectId): Stats {
    Stats(|ProjectReady(videos, tasks, p)|, |ProjectDone(videos, tasks, p)|)
  }

  /** Recount one task and its project; a task that does not exist is an error that changes nothing. */
  function Refresh(db: Db, t: TaskId): Db {
    if t !in db.tasks then db
    else
      var p := db.tasks[t].project;
      var counted := db.tasks[t := db.tasks[t].(stats := TaskStats(db.videos, t))];
      db.(tasks := counted, projects := db.projects[p := ProjectStats(db.videos, counted, p)])
  }

  // ---- What the operations write

  function StatusOf(st: ReviewStatus): ManualStatus {
    match st
    case ReviewSubmitted => ManualSubmitted
    case ReviewInProgress => ManualInProgress
    case ReviewPending => ManualPending
  }

  /** A video as its reader sees it, with the review assignment laid over the stored row. */
  function Seen(db: Db, v: VideoId): Video
    requires v in db.videos
  {
    if v !in db.assignments then db.videos[v]
    else
      var a := db.assignments[v];
      var manual := StatusOf(a.status);
      db.videos[v].(assignedAt := Some(a.assignedAt), manual := manual,
                    overall := ResolveOverall(manual, db.videos[v].ai))
  }

  function FreshVideo(task: Option<TaskId>): Video {
    Video(task, false, ManualPending, AiPending, OverallPending, None, None, None, None, 0)
  }

  function AssignedVideo(v: Video, at: Time): Video {
    v.(assignedAt := Some(at), overall := ResolveOverall(ManualPending, v.ai), manual := ManualPending,
       completedAt := None, manualScore := None, submittedReviews := 0)
  }

  function Assigned(db: Db, task: TaskId, plan: map<VideoId, ScorerId>): Db {
    db.(videos := map v | v in db.videos :: if v in plan then AssignedVideo(db.videos[v], db.now) else db.videos[v],
        assignments := db.assignments + Pending(task, plan, db.now))
  }

  function Pending(task: TaskId, plan: map<VideoId, ScorerId>, at: Time): map<VideoId, Assignment> {
    map v | v in plan :: Assignment(task, plan[v], ReviewPending, at, None, None)
  }

  /** The newest of the first `n` manual evaluations for a video's assignment. Reachable states hold one per
      assignment at most (`Reviewed`), so the order in which the source picks the latest does not matter. */
  function RowBelow(manuals: seq<Manual>, v: VideoId, n: nat): (r: Option<nat>)
    requires n <= |manuals|
    ensures r.None? ==> forall i :: 0 <= i < n ==> manuals[i].video != v
    ensures r.Some? ==> r.value < n && manuals[r.value].video == v
  {
    if n == 0 then None
    else if manuals[n - 1].video == v then Some(n - 1)
    else RowBelow(manuals, v, n - 1)
  }

  function ManualOf(manuals: seq<Manual>, v: VideoId): Option<nat> {
    RowBelow(manuals, v, |manuals|)
  }

  function StartOf(a: Assignment): Time {
    if a.startedAt.Some? then a.startedAt.value else a.assignedAt
  }

  /** A draft (`submit` false) or a submission of `score` for a video that is assigned. An existing row is
      rewritten in place: it keeps its start time and, even after a reassignment, its scorer. */
  function Scored(db: Db, v: VideoId, score: Score, submit: bool): Db
    requires v in db.videos && v in db.assignments
  {
    var a, video := db.assignments[v], db.videos[v];
    var at := if submit then Some(db.now) else None;
    var manual := if submit then ManualSubmitted else ManualInProgress;
    var overall := ResolveOverall(manual, video.ai);
    var i := ManualOf(db.manuals, v);
    db.(manuals :=
          if i.Some? then
            db.manuals[i.value := db.manuals[i.value].(submitted := submit, total := score, submittedAt := at)]
          else
            db.manuals + [Manual(v, a.scorer, submit, score, StartOf(a), at)],
        assignments := db.assignments[v := a.(
          status := if submit then ReviewSubmitted else ReviewInProgress,
          startedAt := Some(StartOf(a)),
          submittedAt := if submit then at else a.submittedAt)],
        videos := db.videos[v := video.(
          manualScore := Some(score), manual := manual, overall := overall,
          completedAt := if submit then ResolveCompletedAt(overall, db.now) else None,
          submittedReviews := if submit then 1 else 0)])
  }

  /** The videos a scorer has saved drafts for. */
  predicate Drafted(db: Db, task: TaskId, scorer: ScorerId, v: VideoId) {
    && v in db.videos && v in db.assignments
    && db.assignments[v].task == task && db.assignments[v].scorer == scorer
    && db.assignments[v].status == ReviewInProgress
    && exists i :: 0 <= i < |db.manuals| && db.manuals[i].video == v && !db.manuals[i].submitted
  }

  function Drafts(db: Db, task: TaskId, scorer: ScorerId): set<VideoId> {
    set v | v in db.videos && Drafted(db, task, scorer, v)
  }

  function SubmittedVideo(v: Video, at: Time): Video {
    var overall := ResolveOverall(ManualSubmitted, v.ai);
    v.(manual := ManualSubmitted, overall := overall, completedAt := ResolveCompletedAt(overall, at),
       submittedReviews := 1)
  }

  function SavedSubmitted(db: Db, vs: set<VideoId>): Db {
    db.(manuals := seq(|db.manuals|, i requires 0 <= i < |db.manuals| =>
          if db.manuals[i].video in vs && !db.manuals[i].submitted
          then db.manuals[i].(submitted := true, submittedAt := Some(db.now)) else db.manuals[i]),
        assignments := map v | v in db.assignments ::
          if v in vs then db.assignments[v].(status := ReviewSubmitted, submittedAt := Some(db.now))
          else db.assignments[v],
        videos := map v | v in db.videos ::
          if v in vs then SubmittedVideo(db.videos[v], db.now) else db.videos[v])
  }

  datatype AiOutcome = Began | Finished(score: Option<Score>) | Failed

  function AiWritten(video: Video, outcome: AiOutcome, at: Time): Video {
    var ai := match outcome case Began => AiProcessing case Finished(_) => AiCompleted case Failed => AiFailed;
    var overall := ResolveOverall(video.manual, ai);
    video.(ai := ai, overall := overall, completedAt := ResolveCompletedAt(overall, at),
           aiScore := if outcome.Finished? then outcome.score else video.aiScore)
  }

  // ---- The operations

  datatype Op =
    | AddProject(p: ProjectId)
    | AddTask(t: TaskId, p: ProjectId)
    | Upload(v: VideoId, into: Option<TaskId>)
    | Confirm(v: VideoId)
    | Ai(v: VideoId, outcome: AiOutcome)
    | Assign(task: TaskId, plan: map<VideoId, ScorerId>)
    | Reassign(task: TaskId, plan: map<VideoId, ScorerId>)
    | Draft(v: VideoId, scorer: ScorerId, score: Score)
    | Submit(v: VideoId, scorer: ScorerId, score: Score)
    | SubmitSaved(task: TaskId, scorer: ScorerId)

  predicate Assignable(db: Db, task: TaskId, v: VideoId) {
    && v in db.videos && db.videos[v].task == Some(task) && db.videos[v].ready
    && Seen(db, v).overall != OverallCompleted && Seen(db, v).manual != ManualSubmitted
  }

  predicate Scorable(db: Db, v: VideoId, scorer: ScorerId) {
    && v in db.videos && v in db.assignments && db.assignments[v].scorer == scorer
    && db.videos[v].task.Some?
    && Seen(db, v).overall != OverallCompleted && Seen(db, v).manual != ManualSubmitted
  }

  predicate Allowed(db: Db, op: Op) {
    match op
    case AddProject(p) => p !in db.projects
    case AddTask(t, p) => t !in db.tasks && p in db.projects
    case Upload(v, into) => v !in db.videos && (into.Some? ==> into.value in db.tasks)
    case Confirm(v) => v in db.videos
    case Ai(v, outcome) => v in db.videos && db.videos[v].ready && db.videos[v].task.Some?
    case Assign(task, plan) => task in db.tasks && forall v :: v in plan ==> Assignable(db, task, v)
    case Reassign(task, plan) =>
      task in db.tasks &&
      forall v :: v in plan ==> Assignable(db, task, v) && Seen(db, v).manual == ManualPending
    case Draft(v, scorer, score) => score >= 0 && Scorable(db, v, scorer)
    case Submit(v, scorer, score) => score >= 0 && Scorable(db, v, scorer)
    case SubmitSaved(task, scorer) => Drafts(db, task, scorer) != {}
  }

  /** One operation. Assigning and drafting leave the counters alone. */
  function Apply(db: Db, op: Op): Db {
    if !Allowed(db, op) then db
    else
      var after :=
        match op
        case AddProject(p) => db.(projects := db.projects[p := Stats(0, 0)])
        case AddTask(t, p) => db.(tasks := db.tasks[t := Task(p, Stats(0, 0))])
        case Upload(v, into) => db.(videos := db.videos[v := FreshVideo(into)])
        case Confirm(v) =>
          var ready := db.(videos := db.videos[v := db.videos[v].(ready := true)]);
          if db.videos[v].task.Some? then Refresh(ready, db.videos[v].task.value) else ready
        case Ai(v, outcome) =>
          Refresh(db.(videos := db.videos[v := AiWritten(db.videos[v], outcome, db.now)]), db.videos[v].task.value)
        case Assign(task, plan) => Assigned(db, task, plan)
        case Reassign(task, plan) => Assigned(db, task, plan)
        case Draft(v, _, score) => Scored(db, v, score, false)
        case Submit(v, _, score) => Refresh(Scored(db, v, score, true), db.videos[v].task.value)
        case SubmitSaved(task, scorer) => Refresh(SavedSubmitted(db, Drafts(db, task, scorer)), task);
      after.(now := db.now + 1)
  }

  function Exec(db: Db, ops: seq<Op>): Db
    decreases |ops|
  {
    if ops == [] then db else Exec(Apply(db, ops[0]), ops[1..])
  }

  // ---- Invariants

  ghost predicate Linked(db: Db) {
    && (forall v :: v in db.videos && db.videos[v].task.Some? ==> db.videos[v].task.value in db.tasks)
    && (forall t :: t in db.tasks ==> db.tasks[t].project in db.projects)
    && (forall v :: v in db.assignments ==> v in db.videos && db.videos[v].task == Some(db.assignments[v].task))
  }

  ghost predicate Counted(db: Db) {
    && (forall t :: t in db.tasks ==> db.tasks[t].stats == TaskStats(db.videos, t))
    && (forall p :: p in db.projects ==> db.projects[p] == ProjectStats(db.videos, db.tasks, p))
  }

  predicate Agrees(v: Video) {
    v.overall == ResolveOverall(v.manual, v.ai) && (v.completedAt.Some? <==> v.overall == OverallCompleted)
  }

  ghost predicate Resolved(db: Db) {
    forall v :: v in db.videos ==> Agrees(db.videos[v])
  }

  predicate RowAt(manuals: seq<Manual>, v: VideoId, i: int) {
    0 <= i < |manuals| && manuals[i].video == v
  }

  /** Video, assignment and evaluation of one review agree: a review that was begun has an evaluation, of
      the same status and with the video's score. A pending one has none but, perhaps, an unsubmitted
      evaluation from before a reassignment. */
  ghost predicate ReviewAgrees(db: Db, v: VideoId) {
    v in db.videos ==>
      var video := db.videos[v];
      if v !in db.assignments then
        && video.manual == ManualPending && video.manualScore.None? && video.submittedReviews == 0
        && (forall i :: !RowAt(db.manuals, v, i))
      else
        var a := db.assignments[v];
        && video.manual == StatusOf(a.status)
        && video.submittedReviews == (if a.status == ReviewSubmitted then 1 else 0)
        && (a.status == ReviewPending ==> video.manualScore.None?)
        && (a.status != ReviewPending ==> exists i :: RowAt(db.manuals, v, i))
        && (forall i :: RowAt(db.manuals, v, i) ==>
              && db.manuals[i].submitted == (a.status == ReviewSubmitted)
              && (a.status != ReviewPending ==> video.manualScore == Some(db.manuals[i].total)))
  }

  ghost predicate Reviewed(db: Db) {
    && (forall i, j :: 0 <= i < j < |db.manuals| ==> db.manuals[i].video != db.manuals[j].video)
    && (forall i :: 0 <= i < |db.manuals| ==> db.manuals[i].video in db.videos)
    && (forall v {:trigger ReviewAgrees(db, v)} :: ReviewAgrees(db, v))
  }

  ghost predicate Inv(db: Db) {
    Linked(db) && Counted(db) && Resolved(db) && Reviewed(db)
  }

  // ---- Counters: what a recount restores and what needs none

  /** Two states of a video that count the same for every task and project. */
  predicate CountsAlike(v: Video, w: Video) {
    v.task == w.task && (v.task.Some? ==> v.ready == w.ready && (Done(v) <==> Done(w)))
  }

  predicate SameHomes(tasks: Tasks, tasks': Tasks) {
    tasks.Keys == tasks'.Keys && forall t :: t in tasks ==> tasks[t].project == tasks'[t].project
  }

  lemma HomesDecideProjects(videos: Videos, tasks: Tasks, tasks': Tasks, p: ProjectId)
    requires SameHomes(tasks, tasks')
    ensures ProjectStats(videos, tasks, p) == ProjectStats(videos, tasks', p)
  {
    assert ProjectReady(videos, tasks, p) == ProjectReady(videos, tasks', p);
    assert ProjectDone(videos, tasks, p) == ProjectDone(videos, tasks', p);
  }

  lemma QuietCounts(db: Db, after: Db)
    requires Counted(db) && after.tasks == db.tasks && after.projects == db.projects
    requires after.videos.Keys == db.videos.Keys
    requires forall v :: v in db.videos ==> CountsAlike(db.videos[v], after.videos[v])
    ensures Counted(after)
  {
    forall t | t in db.tasks ensures TaskStats(after.videos, t) == TaskStats(db.videos, t) {
      assert TaskReady(after.videos, t) == TaskReady(db.videos, t);
      assert TaskDone(after.videos, t) == TaskDone(db.videos, t);
    }
    forall p | p in db.projects
      ensures ProjectStats(after.videos, after.tasks, p) == ProjectStats(db.videos, db.tasks, p)
    {
      assert ProjectReady(after.videos, db.tasks, p) == ProjectReady(db.videos, db.tasks, p);
      assert ProjectDone(after.videos, db.tasks, p) == ProjectDone(db.videos, db.tasks, p);
    }
  }

  /** The videos differ, for the counters, only within task `t`. */
  ghost predicate DifferWithin(videos: Videos, after: Videos, t: TaskId) {
    && after.Keys == videos.Keys
    && forall v :: v in videos ==>
         CountsAlike(videos[v], after[v]) || (videos[v].task == Some(t) && after[v].task == Some(t))
  }

  lemma OtherTaskCounts(videos: Videos, after: Videos, t: TaskId, u: TaskId)
    requires DifferWithin(videos, after, t) && u != t
    ensures TaskStats(after, u) == TaskStats(videos, u)
  {
    assert TaskReady(after, u) == TaskReady(videos, u);
    assert TaskDone(after, u) == TaskDone(videos, u);
  }

  lemma OtherProjectCounts(videos: Videos, after: Videos, tasks: Tasks, t: TaskId, p: ProjectId)
    requires DifferWithin(videos, after, t) && t in tasks && tasks[t].project != p
    ensures ProjectStats(after, tasks, p) == ProjectStats(videos, tasks, p)
  {
    assert ProjectReady(after, tasks, p) == ProjectReady(videos, tasks, p);
    assert ProjectDone(after, tasks, p) == ProjectDone(videos, tasks, p);
  }

  /** Whatever happened to the videos of one task, recounting that task makes every counter right. */
  lemma RefreshCounts(db: Db, after: Db, t: TaskId)
    requires Counted(db) && after.tasks == db.tasks && after.projects == db.projects && t in db.tasks
    requires DifferWithin(db.videos, after.videos, t)
    ensures Counted(Refresh(after, t))
  {
    var r := Refresh(after, t);
    forall u | u in r.tasks ensures r.tasks[u].stats == TaskStats(r.videos, u) {
      if u != t {
        OtherTaskCounts(db.videos, after.videos, t, u);
      }
    }
    forall p | p in r.projects ensures r.projects[p] == ProjectStats(r.videos, r.tasks, p) {
      if p != db.tasks[t].project {
        OtherProjectCounts(db.videos, after.videos, db.tasks, t, p);
        HomesDecideProjects(after.videos, db.tasks, r.tasks, p);
      }
    }
  }

  /** A task's project counter is the sum of the counters of its tasks, however they are listed. */
  function Totals(tasks: Tasks, ts: seq<TaskId>): Stats
    requires forall t :: t in ts ==> t in tasks
  {
    if ts == [] then Stats(0, 0)
    else
      var rest, own := Totals(tasks, ts[1..]), tasks[ts[0]].stats;
      Stats(own.total + rest.total, own.completed + rest.completed)
  }

  function ReadyOf(videos: Videos, ts: seq<TaskId>): set<VideoId> {
    set v | v in videos && videos[v].ready && videos[v].task.Some? && videos[v].task.value in ts
  }

  function DoneOf(videos: Videos, ts: seq<TaskId>): set<VideoId> {
    set v | v in videos && videos[v].ready && videos[v].task.Some? && videos[v].task.value in ts && Done(videos[v])
  }

  lemma FirstTaskSplits(videos: Videos, ts: seq<TaskId>)
    requires ts != [] && ts[0] !in ts[1..]
    ensures |ReadyOf(videos, ts)| == |TaskReady(videos, ts[0])| + |ReadyOf(videos, ts[1..])|
    ensures |DoneOf(videos, ts)| == |TaskDone(videos, ts[0])| + |DoneOf(videos, ts[1..])|
  {
    assert forall t :: t in ts <==> t == ts[0] || t in ts[1..];
    assert ReadyOf(videos, ts) == TaskReady(videos, ts[0]) + ReadyOf(videos, ts[1..]);
    assert DoneOf(videos, ts) == TaskDone(videos, ts[0]) + DoneOf(videos, ts[1..]);
    assert TaskReady(videos, ts[0]) !! ReadyOf(videos, ts[1..]);
    assert TaskDone(videos, ts[0]) !! DoneOf(videos, ts[1..]);
  }

  lemma {:induction false} TotalsCountUnions(db: Db, ts: seq<TaskId>)
    requires Counted(db) && forall t :: t in ts ==> t in db.tasks
    requires forall i, j :: 0 <= i < j < |ts| ==> ts[i] != ts[j]
    ensures Totals(db.tasks, ts) == Stats(|ReadyOf(db.videos, ts)|, |DoneOf(db.videos, ts)|)
    decreases |ts|
  {
    if ts == [] {
      assert ReadyOf(db.videos, ts) == {} && DoneOf(db.videos, ts) == {};
    } else {
      assert ts[0] in ts;
      TotalsCountUnions(db, ts[1..]);
      FirstTaskSplits(db.videos, ts);
    }
  }

  // ---- Each operation keeps the invariants

  /** The row that a guard looks at is the stored row, assignment date apart. */
  lemma SeenIsStored(db: Db, v: VideoId)
    requires Resolved(db) && Reviewed(db) && v in db.videos
    ensures Seen(db, v).manual == db.videos[v].manual && Seen(db, v).overall == db.videos[v].overall
  {
    assert ReviewAgrees(db, v);
  }

  /** The review columns of a video. */
  predicate ReviewsAlike(v: Video, w: Video) {
    v.manual == w.manual && v.manualScore == w.manualScore && v.submittedReviews == w.submittedReviews
  }

  lemma FrameReviews(db: Db, after: Db)
    requires Reviewed(db)
    requires after.videos.Keys == db.videos.Keys && after.assignments == db.assignments && after.manuals == db.manuals
    requires forall v :: v in db.videos ==> ReviewsAlike(db.videos[v], after.videos[v])
    ensures Reviewed(after)
  {
    forall v ensures ReviewAgrees(after, v) {
      assert ReviewAgrees(db, v);
    }
  }

  ghost predicate Sound(db: Db) { Linked(db) && Resolved(db) && Reviewed(db) }

  lemma RefreshKeepsRest(db: Db, t: TaskId)
    requires Sound(db)
    ensures Sound(Refresh(db, t))
  {
    FrameReviews(db, Refresh(db, t));
  }

  lemma NewTaskIsEmpty(videos: Videos, tasks: Tasks, t: TaskId, task: Task, p: ProjectId)
    requires t !in tasks && forall v :: v in videos ==> videos[v].task != Some(t)
    ensures TaskStats(videos, t) == Stats(0, 0)
    ensures ProjectStats(videos, tasks[t := task], p) == ProjectStats(videos, tasks, p)
  {
    assert TaskReady(videos, t) == {} && TaskDone(videos, t) == {};
    assert ProjectReady(videos, tasks[t := task], p) == ProjectReady(videos, tasks, p);
    assert ProjectDone(videos, tasks[t := task], p) == ProjectDone(videos, tasks, p);
  }

  lemma AddTaskCounts(db: Db, t: TaskId, p: ProjectId)
    requires Linked(db) && Counted(db) && Allowed(db, AddTask(t, p))
    ensures Counted(Apply(db, AddTask(t, p)))
  {
    forall q ensures ProjectStats(db.videos, db.tasks[t := Task(p, Stats(0, 0))], q) == ProjectStats(db.videos, db.tasks, q) {
      NewTaskIsEmpty(db.videos, db.tasks, t, Task(p, Stats(0, 0)), q);
    }
    NewTaskIsEmpty(db.videos, db.tasks, t, Task(p, Stats(0, 0)), p);
  }

  lemma AddProjectCounts(db: Db, p: ProjectId)
    requires Linked(db) && Counted(db) && Allowed(db, AddProject(p))
    ensures Counted(Apply(db, AddProject(p)))
  {
    assert ProjectReady(db.videos, db.tasks, p) == {} && ProjectDone(db.videos, db.tasks, p) == {};
  }

  lemma AddKeeps(db: Db, op: Op)
    requires Inv(db) && Allowed(db, op) && (op.AddProject? || op.AddTask?)
    ensures Inv(Apply(db, op))
  {
    hide Counted, Reviewed;
    FrameReviews(db, Apply(db, op));
    if op.AddTask? {
      AddTaskCounts(db, op.t, op.p);
    } else {
      AddProjectCounts(db, op.p);
    }
  }

  lemma UploadCounts(db: Db, v: VideoId, video: Video)
    requires Counted(db) && v !in db.videos && !video.ready
    ensures Counted(db.(videos := db.videos[v := video]))
  {
    var r := db.(videos := db.videos[v := video]);
    forall t | t in r.tasks ensures TaskStats(r.videos, t) == TaskStats(db.videos, t) {
      assert TaskReady(r.videos, t) == TaskReady(db.videos, t);
      assert TaskDone(r.videos, t) == TaskDone(db.videos, t);
    }
    forall p ensures ProjectStats(r.videos, r.tasks, p) == ProjectStats(db.videos, db.tasks, p) {
      UploadProjectCounts(db, v, video, p);
    }
    hide TaskStats, ProjectStats;
  }

  lemma UploadProjectCounts(db: Db, v: VideoId, video: Video, p: ProjectId)
    requires v !in db.videos && !video.ready
    ensures ProjectStats(db.videos[v := video], db.tasks, p) == ProjectStats(db.videos, db.tasks, p)
  {
    assert ProjectReady(db.videos[v := video], db.tasks, p) == ProjectReady(db.videos, db.tasks, p);
    assert ProjectDone(db.videos[v := video], db.tasks, p) == ProjectDone(db.videos, db.tasks, p);
  }

  lemma UploadStaysSound(db: Db, v: VideoId, into: Option<TaskId>)
    requires Sound(db) && Allowed(db, Upload(v, into))
    ensures Sound(db.(videos := db.videos[v := FreshVideo(into)]))
  {
    var r := db.(videos := db.videos[v := FreshVideo(into)]);
    assert v !in db.assignments;
    forall u ensures ReviewAgrees(r, u) {
      assert ReviewAgrees(db, u);
    }
  }

  lemma UploadKeeps(db: Db, v: VideoId, into: Option<TaskId>)
    requires Inv(db) && Allowed(db, Upload(v, into))
    ensures Inv(db.(videos := db.videos[v := FreshVideo(into)]))
  {
    hide Counted, Linked, Resolved, Reviewed;
    UploadCounts(db, v, FreshVideo(into));
    UploadStaysSound(db, v, into);
  }

  lemma RewriteStaysSound(db: Db, v: VideoId, video: Video)
    requires Sound(db) && v in db.videos && Agrees(video)
    requires video.task == db.videos[v].task && ReviewsAlike(db.videos[v], video)
    ensures Sound(db.(videos := db.videos[v := video])) && (video.task.Some? ==> video.task.value in db.tasks)
  {
    FrameReviews(db, db.(videos := db.videos[v := video]));
  }

  /** One video rewritten, review columns untouched, then its task recounted if it has one. */
  lemma RewriteKeeps(db: Db, v: VideoId, video: Video)
    requires Inv(db) && v in db.videos && Agrees(video)
    requires video.task == db.videos[v].task && ReviewsAlike(db.videos[v], video)
    ensures
      var after := db.(videos := db.videos[v := video]);
      Inv(if video.task.Some? then Refresh(after, video.task.value) else after)
  {
    hide Counted, Linked, Resolved, Reviewed;
    var after := db.(videos := db.videos[v := video]);
    RewriteStaysSound(db, v, video);
    if video.task.Some? {
      RefreshKeepsRest(after, video.task.value);
      RefreshCounts(db, after, video.task.value);
    } else {
      QuietCounts(db, after);
    }
  }

  lemma AssignKeepsReviews(db: Db, task: TaskId, plan: map<VideoId, ScorerId>)
    requires Reviewed(db)
    requires forall v :: v in plan ==> v in db.videos && db.videos[v].manual != ManualSubmitted
    ensures Reviewed(Assigned(db, task, plan))
  {
    var r := Assigned(db, task, plan);
    forall v ensures ReviewAgrees(r, v) {
      assert ReviewAgrees(db, v);
    }
  }

  lemma AssignableIsOpen(db: Db, task: TaskId, v: VideoId)
    requires Sound(db) && Assignable(db, task, v)
    ensures db.videos[v].task == Some(task) && !Done(db.videos[v]) && db.videos[v].manual != ManualSubmitted
  {
    SeenIsStored(db, v);
  }

  lemma AssignKeepsLinks(db: Db, task: TaskId, plan: map<VideoId, ScorerId>)
    requires Linked(db) && Resolved(db)
    requires forall v :: v in plan ==> v in db.videos && db.videos[v].task == Some(task)
    ensures Linked(Assigned(db, task, plan)) && Resolved(Assigned(db, task, plan))
  {
  }

  lemma AssignStaysSound(db: Db, task: TaskId, plan: map<VideoId, ScorerId>)
    requires Sound(db) && Allowed(db, Assign(task, plan))
    ensures Sound(Assigned(db, task, plan))
    ensures forall v :: v in plan ==> v in db.videos && !Done(db.videos[v])
  {
    forall v | v in plan
      ensures v in db.videos && db.videos[v].task == Some(task)
      ensures !Done(db.videos[v]) && db.videos[v].manual != ManualSubmitted
    {
      AssignableIsOpen(db, task, v);
    }
    hide Reviewed, Linked, Resolved, Assigned, Seen, Assignable;
    AssignKeepsReviews(db, task, plan);
    AssignKeepsLinks(db, task, plan);
  }

  lemma AssignKeeps(db: Db, task: TaskId, plan: map<VideoId, ScorerId>)
    requires Inv(db) && Allowed(db, Assign(task, plan))
    ensures Inv(Assigned(db, task, plan))
  {
    hide Counted, Linked, Resolved, Reviewed;
    AssignStaysSound(db, task, plan);
    QuietCounts(db, Assigned(db, task, plan));
  }

  lemma ScoreKeepsReviews(db: Db, v: VideoId, score: Score, submit: bool)
    requires Reviewed(db) && v in db.videos && v in db.assignments && db.assignments[v].status != ReviewSubmitted
    ensures Reviewed(Scored(db, v, score, submit))
  {
    var r := Scored(db, v, score, submit);
    var i := ManualOf(db.manuals, v);
    assert RowAt(r.manuals, v, if i.Some? then i.value else |db.manuals|);
    forall u ensures ReviewAgrees(r, u) {
      assert ReviewAgrees(db, u);
      assert forall j :: u != v ==> (RowAt(r.manuals, u, j) <==> RowAt(db.manuals, u, j));
      if u != v && (exists j :: RowAt(db.manuals, u, j)) {
        var j :| RowAt(db.manuals, u, j);
        assert RowAt(r.manuals, u, j);
      }
    }
  }

  lemma NotYetSubmitted(db: Db, v: VideoId, scorer: ScorerId)
    requires Sound(db) && Scorable(db, v, scorer)
    ensures db.assignments[v].status != ReviewSubmitted && !Done(db.videos[v])
    ensures db.videos[v].task.value in db.tasks
  {
    SeenIsStored(db, v);
    assert ReviewAgrees(db, v);
  }

  lemma DraftKeeps(db: Db, v: VideoId, scorer: ScorerId, score: Score)
    requires Inv(db) && Allowed(db, Draft(v, scorer, score))
    ensures Inv(Scored(db, v, score, false))
  {
    hide Counted, Reviewed, Seen;
    NotYetSubmitted(db, v, scorer);
    ScoreKeepsReviews(db, v, score, false);
    QuietCounts(db, Scored(db, v, score, false));
  }

  lemma SubmitStaysSound(db: Db, v: VideoId, scorer: ScorerId, score: Score)
    requires Sound(db) && Allowed(db, Submit(v, scorer, score))
    ensures Sound(Scored(db, v, score, true)) && db.videos[v].task.value in db.tasks
    ensures DifferWithin(db.videos, Scored(db, v, score, true).videos, db.videos[v].task.value)
  {
    NotYetSubmitted(db, v, scorer);
    ScoreKeepsReviews(db, v, score, true);
  }

  lemma SubmitKeeps(db: Db, v: VideoId, scorer: ScorerId, score: Score)
    requires Inv(db) && Allowed(db, Submit(v, scorer, score))
    ensures Inv(Refresh(Scored(db, v, score, true), db.videos[v].task.value))
  {
    hide Counted, Linked, Resolved, Reviewed;
    var t, r := db.videos[v].task.value, Scored(db, v, score, true);
    SubmitStaysSound(db, v, scorer, score);
    RefreshKeepsRest(r, t);
    RefreshCounts(db, r, t);
  }

  lemma SavedKeepsReviews(db: Db, task: TaskId, scorer: ScorerId)
    requires Reviewed(db)
    ensures Reviewed(SavedSubmitted(db, Drafts(db, task, scorer)))
  {
    var vs := Drafts(db, task, scorer);
    var r := SavedSubmitted(db, vs);
    forall v ensures ReviewAgrees(r, v) {
      assert ReviewAgrees(db, v);
      assert forall i :: RowAt(r.manuals, v, i) <==> RowAt(db.manuals, v, i);
      if exists i :: RowAt(db.manuals, v, i) {
        var i :| RowAt(db.manuals, v, i);
        assert RowAt(r.manuals, v, i);
      }
    }
  }

  lemma SavedStaysSound(db: Db, task: TaskId, scorer: ScorerId)
    requires Sound(db) && Allowed(db, SubmitSaved(task, scorer))
    ensures Sound(SavedSubmitted(db, Drafts(db, task, scorer))) && task in db.tasks
    ensures forall v :: v in Drafts(db, task, scorer) ==> db.videos[v].task == Some(task)
  {
    hide Reviewed;
    var v :| v in Drafts(db, task, scorer);
    SavedKeepsReviews(db, task, scorer);
  }

  lemma SubmitSavedKeeps(db: Db, task: TaskId, scorer: ScorerId)
    requires Inv(db) && Allowed(db, SubmitSaved(task, scorer))
    ensures Inv(Refresh(SavedSubmitted(db, Drafts(db, task, scorer)), task))
  {
    hide Counted, Linked, Resolved, Reviewed;
    var r := SavedSubmitted(db, Drafts(db, task, scorer));
    SavedStaysSound(db, task, scorer);
    RefreshKeepsRest(r, task);
    RefreshCounts(db, r, task);
  }

  lemma ClockKeeps(db: Db, now: Time)
    requires Inv(db)
    ensures Inv(db.(now := now))
  {
    FrameReviews(db, db.(now := now));
  }

  lemma ApplyKeeps(db: Db, op: Op)
    requires Inv(db)
    ensures Inv(Apply(db, op))
  {
    hide Counted, Linked, Reviewed;
    if Allowed(db, op) {
      match op {
        case AddProject(_) => AddKeeps(db, op);
        case AddTask(_, _) => AddKeeps(db, op);
        case Upload(v, into) =>
          UploadKeeps(db, v, into);
          ClockKeeps(db.(videos := db.videos[v := FreshVideo(into)]), db.now + 1);
        case Confirm(v) =>
          RewriteKeeps(db, v, db.videos[v].(ready := true));
          ClockKeeps(Apply(db, op).(now := db.now), db.now + 1);
        case Ai(v, outcome) =>
          RewriteKeeps(db, v, AiWritten(db.videos[v], outcome, db.now));
          ClockKeeps(Apply(db, op).(now := db.now), db.now + 1);
        case Assign(task, plan) =>
          AssignKeeps(db, task, plan);
          ClockKeeps(Assigned(db, task, plan), db.now + 1);
        case Reassign(task, plan) =>
          AssignKeeps(db, task, plan);
          ClockKeeps(Assigned(db, task, plan), db.now + 1);
        case Draft(v, scorer, score) =>
          DraftKeeps(db, v, scorer, score);
          ClockKeeps(Scored(db, v, score, false), db.now + 1);
        case Submit(v, scorer, score) =>
          SubmitKeeps(db, v, scorer, score);
          ClockKeeps(Apply(db, op).(now := db.now), db.now + 1);
        case SubmitSaved(task, scorer) =>
          SubmitSavedKeeps(db, task, scorer);
          ClockKeeps(Apply(db, op).(now := db.now), db.now + 1);
      }
    }
  }

  lemma {:induction false} ExecKeeps(db: Db, ops: seq<Op>)
    requires Inv(db)
    ensures Inv(Exec(db, ops))
    decreases |ops|
  {
    if ops != [] {
      ApplyKeeps(db, ops[0]);
      ExecKeeps(Apply(db, ops[0]), ops[1..]);
    }
  }

  lemma EmptyInv()
    ensures Inv(Empty())
  {
    forall v ensures ReviewAgrees(Empty(), v) {
    }
  }

  lemma HistoryInv(ops: seq<Op>)
    ensures Inv(Exec(Empty(), ops))
  {
    EmptyInv();
    ExecKeeps(Empty(), ops);
  }

  // ---- What holds after every history

  /** The cached counters are exact: each task's against its videos, and each project's against the sum
      over its tasks, in whatever order they are listed. */
  lemma CountersAreExact(ops: seq<Op>, p: ProjectId, ts: seq<TaskId>)
    requires forall i, j :: 0 <= i < j < |ts| ==> ts[i] != ts[j]
    requires p in Exec(Empty(), ops).projects
    requires forall t :: t in ts <==> t in Exec(Empty(), ops).tasks && Exec(Empty(), ops).tasks[t].project == p
    ensures
      var db := Exec(Empty(), ops);
      && (forall t :: t in db.tasks ==>
            && db.tasks[t].stats.total == |TaskReady(db.videos, t)|
            && db.tasks[t].stats.completed == |TaskDone(db.videos, t)|)
      && db.projects[p] == Totals(db.tasks, ts)
  {
    var db := Exec(Empty(), ops);
    HistoryInv(ops);
    ProjectIsSumOfTasks(db, p, ts);
  }

  lemma ProjectIsSumOfTasks(db: Db, p: ProjectId, ts: seq<TaskId>)
    requires Counted(db) && p in db.projects
    requires forall i, j :: 0 <= i < j < |ts| ==> ts[i] != ts[j]
    requires forall t :: t in ts <==> t in db.tasks && db.tasks[t].project == p
    ensures db.projects[p] == Totals(db.tasks, ts)
  {
    TotalsCountUnions(db, ts);
    assert ProjectReady(db.videos, db.tasks, p) == ReadyOf(db.videos, ts);
    assert ProjectDone(db.videos, db.tasks, p) == DoneOf(db.videos, ts);
  }

  /** The overall status is always the one that follows from the other two, and a completion date is
      there exactly when it is completed. */
  lemma StatusFollows(ops: seq<Op>, v: VideoId)
    requires v in Exec(Empty(), ops).videos
    ensures
      var video := Exec(Empty(), ops).videos[v];
      && video.overall == ResolveOverall(video.manual, video.ai)
      && (video.completedAt.Some? <==> video.manual == ManualSubmitted && video.ai == AiCompleted)
  {
    HistoryInv(ops);
  }

  /** A review that was begun has exactly one evaluation, of its status and with the video's score. */
  lemma ReviewIsConsistent(ops: seq<Op>, v: VideoId)
    requires v in Exec(Empty(), ops).assignments
    ensures
      var db := Exec(Empty(), ops);
      && v in db.videos && db.videos[v].manual == StatusOf(db.assignments[v].status)
      && db.videos[v].submittedReviews == (if db.assignments[v].status == ReviewSubmitted then 1 else 0)
      && (db.assignments[v].status != ReviewPending ==> exists i ::
            && RowAt(db.manuals, v, i) && (forall j :: RowAt(db.manuals, v, j) ==> i == j)
            && db.manuals[i].submitted == (db.assignments[v].status == ReviewSubmitted)
            && db.videos[v].manualScore == Some(db.manuals[i].total))
  {
    var db := Exec(Empty(), ops);
    HistoryInv(ops);
    assert ReviewAgrees(db, v);
    if db.assignments[v].status != ReviewPending {
      var i :| RowAt(db.manuals, v, i);
      forall j | RowAt(db.manuals, v, j) ensures i == j {
        assert i < j || j < i || i == j;
      }
    }
  }

  predicate IsSubmitted(db: Db, v: VideoId) {
    v in db.videos && v in db.assignments && db.assignments[v].status == ReviewSubmitted
  }

  lemma SubmittedIsRefused(db: Db, v: VideoId)
    requires IsSubmitted(db, v)
    ensures forall task :: !Assignable(db, task, v)
    ensures forall scorer :: !Scorable(db, v, scorer)
    ensures forall task, scorer :: v !in Drafts(db, task, scorer)
  {
  }

  lemma SubmittedStays(db: Db, op: Op, v: VideoId)
    requires Inv(db) && IsSubmitted(db, v)
    ensures IsSubmitted(Apply(db, op), v)
    ensures Apply(db, op).assignments[v] == db.assignments[v]
    ensures Apply(db, op).videos[v].manualScore == db.videos[v].manualScore
  {
    hide Counted, Linked, Resolved, Reviewed;
    SubmittedIsRefused(db, v);
  }

  /** A submitted review is never left: later operations keep its scorer, its dates and its score. */
  lemma {:induction false} SubmittedIsForever(db: Db, ops: seq<Op>, v: VideoId)
    requires Inv(db) && IsSubmitted(db, v)
    ensures IsSubmitted(Exec(db, ops), v)
    ensures Exec(db, ops).assignments[v] == db.assignments[v]
    ensures Exec(db, ops).videos[v].manualScore == db.videos[v].manualScore
    decreases |ops|
  {
    if ops != [] {
      SubmittedStays(db, ops[0], v);
      ApplyKeeps(db, ops[0]);
      SubmittedIsForever(Apply(db, ops[0]), ops[1..], v);
    }
  }

  lemma UnguardedLosesCount(db: Db, task: TaskId, plan: map<VideoId, ScorerId>, v: VideoId)
    requires v in plan && v in db.videos && InTask(db.videos[v], task) && Done(db.videos[v])
    ensures |TaskDone(Assigned(db, task, plan).videos, task)| < |TaskDone(db.videos, task)|
  {
    var after := Assigned(db, task, plan).videos;
    assert v in TaskDone(db.videos, task) && v !in TaskDone(after, task);
    assert TaskDone(after, task) <= TaskDone(db.videos, task);
    SmallerSet(TaskDone(after, task), TaskDone(db.videos, task));
  }

  /** The guard of assigning is exactly what lets it skip the recount: without it, the counters would
      stay right if and only if no video of the plan is completed. */
  lemma AssignNeedsItsGuard(db: Db, task: TaskId, plan: map<VideoId, ScorerId>)
    requires Inv(db) && task in db.tasks
    requires forall v :: v in plan ==> v in db.videos && InTask(db.videos[v], task)
    ensures Counted(Assigned(db, task, plan)) <==> forall v :: v in plan ==> !Done(db.videos[v])
  {
    hide Linked, Resolved, Reviewed;
    if forall v :: v in plan ==> !Done(db.videos[v]) {
      QuietCounts(db, Assigned(db, task, plan));
    } else {
      var v :| v in plan && Done(db.videos[v]);
      UnguardedLosesCount(db, task, plan, v);
    }
  }

  lemma HasARow(db: Db, v: VideoId) returns (i: nat)
    requires Reviewed(db) && v in db.videos && v in db.assignments && db.assignments[v].status != ReviewPending
    ensures ManualOf(db.manuals, v) == Some(i) && RowAt(db.manuals, v, i)
  {
    assert ReviewAgrees(db, v);
    i := ManualOf(db.manuals, v).value;
  }

  /** The scorer of an evaluation is not always the scorer of its assignment: a drafted video that is
      reassigned and drafted again keeps the first scorer's row. */
  lemma ReassignedDraftKeepsItsScorer(db: Db, v: VideoId, task: TaskId, first: ScorerId, second: ScorerId, score: Score)
    requires Inv(db) && v in db.assignments && db.assignments[v].status == ReviewInProgress
    requires Allowed(db, Assign(task, map[v := second])) && score >= 0 && first != second
    requires forall i :: RowAt(db.manuals, v, i) ==> db.manuals[i].scorer == first
    ensures
      var again := Apply(Apply(db, Assign(task, map[v := second])), Draft(v, second, score));
      && v in again.assignments && again.assignments[v].scorer == second
      && again.assignments[v].status == ReviewInProgress
      && exists i :: RowAt(again.manuals, v, i) && again.manuals[i].scorer == first && again.manuals[i].total == score
  {
    hide Counted, Linked, Resolved;
    var handed := Apply(db, Assign(task, map[v := second]));
    var i := HasARow(db, v);
    assert handed.manuals == db.manuals && handed.assignments[v].scorer == second;
    assert Allowed(handed, Draft(v, second, score));
    hide Reviewed, Allowed, Assigned;
    assert RowAt(Scored(handed, v, score, false).manuals, v, i);
  }
}

/**
 What each operation on videos, reviews and counters accepts, and what it then leaves, told column by column over the
 rows before and after. Nothing here uses the functions that compute the new rows; that they agree is proved, and so is
 that the telling leaves nothing open.
 */
module ReviewEffects {
  import opened Wrappers
  import opened EvaluationStatus
  import opened Lifecycle

  // ---- What is accepted

  /** A review that is not submitted, or a video that is not under review and neither submitted nor completed. */
  predicate Open(db: Db, v: VideoId) {
    v in db.videos &&
    if v in db.assignments then db.assignments[v].status != ReviewSubmitted
    else db.videos[v].manual != ManualSubmitted && db.videos[v].overall != OverallCompleted
  }

  predicate Selectable(db: Db, task: TaskId, v: VideoId) {
    v in db.videos && db.videos[v].task == Some(task) && db.videos[v].ready && Open(db, v)
  }

  predicate Untouched(db: Db, v: VideoId)
    requires v in db.videos
  {
    if v in db.assignments then db.assignments[v].status == ReviewPending else db.videos[v].manual == ManualPending
  }

  /** The video is the scorer's to score, and not submitted yet. */
  predicate Mine(db: Db, v: VideoId, scorer: ScorerId) {
    && v in db.videos && db.videos[v].task.Some?
    && v in db.assignments && db.assignments[v].scorer == scorer && db.assignments[v].status != ReviewSubmitted
  }

  /** A draft of this scorer in this task: a review in progress with an evaluation that is not submitted. */
  ghost predicate DraftOf(db: Db, task: TaskId, scorer: ScorerId, v: VideoId) {
    && v in db.videos && v in db.assignments && db.assignments[v].task == task && db.assignments[v].scorer == scorer
    && db.assignments[v].status == ReviewInProgress
    && exists i :: RowAt(db.manuals, v, i) && !db.manuals[i].submitted
  }

  ghost predicate Accepts(db: Db, op: Op) {
    match op
    case AddProject(p) => p !in db.projects
    case AddTask(t, p) => t !in db.tasks && p in db.projects
    case Upload(v, into) => v !in db.videos && (into.Some? ==> into.value in db.tasks)
    case Confirm(v) => v in db.videos
    case Ai(v, _) => v in db.videos && db.videos[v].ready && db.videos[v].task.Some?
    case Assign(task, plan) => task in db.tasks && forall v :: v in plan ==> Selectable(db, task, v)
    case Reassign(task, plan) =>
      task in db.tasks && forall v :: v in plan ==> Selectable(db, task, v) && Untouched(db, v)
    case Draft(v, scorer, score) => score >= 0 && Mine(db, v, scorer)
    case Submit(v, scorer, score) => score >= 0 && Mine(db, v, scorer)
    case SubmitSaved(task, scorer) => exists v :: DraftOf(db, task, scorer, v)
  }

  /** The guards come down to this. */
  lemma AllowedIff(db: Db, op: Op)
    ensures Allowed(db, op) <==> Accepts(db, op)
  {
    match op {
      case SubmitSaved(task, scorer) =>
        forall v ensures v in Drafts(db, task, scorer) <==> DraftOf(db, task, scorer, v) {
          DraftsIff(db, task, scorer, v);
        }
        if v :| v in Drafts(db, task, scorer) {
          assert DraftOf(db, task, scorer, v);
        }
      case _ =>
    }
  }

  lemma DraftsIff(db: Db, task: TaskId, scorer: ScorerId, v: VideoId)
    ensures v in Drafts(db, task, scorer) <==> DraftOf(db, task, scorer, v)
  {
    if i :| 0 <= i < |db.manuals| && db.manuals[i].video == v && !db.manuals[i].submitted {
      assert RowAt(db.manuals, v, i);
    }
  }

  lemma DraftsAreTheirs(db: Db, task: TaskId, scorer: ScorerId)
    ensures Drafts(db, task, scorer) == set v | v in db.videos && DraftOf(db, task, scorer, v)
    ensures Drafts(db, task, scorer) == {} <==> !Accepts(db, SubmitSaved(task, scorer))
    ensures Drafts(db, task, scorer) <= db.videos.Keys && Drafts(db, task, scorer) <= db.assignments.Keys
  {
    forall v ensures v in Drafts(db, task, scorer) <==> DraftOf(db, task, scorer, v) {
      DraftsIff(db, task, scorer, v);
    }
    AllowedIff(db, SubmitSaved(task, scorer));
  }

  // ---- What is left

  /** The columns that no review writes. */
  predicate SameUpload(x: Video, y: Video) {
    x.task == y.task && x.ready == y.ready && x.ai == y.ai && x.aiScore == y.aiScore
  }

  /** The columns that no evaluation by the language model writes. */
  predicate SameReview(x: Video, y: Video) {
    && x.task == y.task && x.ready == y.ready && x.manual == y.manual && x.manualScore == y.manualScore
    && x.assignedAt == y.assignedAt && x.submittedReviews == y.submittedReviews
  }

  /** Every video outside the set is as it was, and none has come or gone; likewise for assignments. */
  predicate VideosBut(db: Db, after: Db, vs: set<VideoId>) {
    after.videos.Keys == db.videos.Keys && forall u :: u in db.videos && u !in vs ==> after.videos[u] == db.videos[u]
  }

  predicate AssignmentsBut(db: Db, after: Db, vs: set<VideoId>) {
    && after.assignments.Keys == db.assignments.Keys
    && forall u :: u in db.assignments && u !in vs ==> after.assignments[u] == db.assignments[u]
  }

  predicate ReviewsStay(db: Db, after: Db) { after.assignments == db.assignments && after.manuals == db.manuals }

  predicate CountersStay(db: Db, after: Db) { after.tasks == db.tasks && after.projects == db.projects }

  /** The counters of a task and its project are the numbers of their ready and of their completed videos; all others
      are as they were. A task that does not exist has none. */
  ghost predicate Recounted(db: Db, after: Db, t: TaskId) {
    if t !in db.tasks then CountersStay(db, after)
    else
      var p := db.tasks[t].project;
      && after.tasks.Keys == db.tasks.Keys && after.tasks[t].project == p
      && (forall u :: u in db.tasks && u != t ==> after.tasks[u] == db.tasks[u])
      && after.projects.Keys == db.projects.Keys + {p}
      && (forall q :: q in db.projects && q != p ==> after.projects[q] == db.projects[q])
      && after.tasks[t].stats.total == |set v | v in after.videos && after.videos[v].ready && after.videos[v].task == Some(t)|
      && after.tasks[t].stats.completed ==
           |set v | v in after.videos && after.videos[v].ready && after.videos[v].task == Some(t)
                    && after.videos[v].overall == OverallCompleted|
      && after.projects[p].total == |set v | v in after.videos && after.videos[v].ready && OfProject(db, after.videos[v], p)|
      && after.projects[p].completed ==
           |set v | v in after.videos && after.videos[v].ready && OfProject(db, after.videos[v], p)
                    && after.videos[v].overall == OverallCompleted|
  }

  predicate OfProject(db: Db, x: Video, p: ProjectId) {
    x.task.Some? && x.task.value in db.tasks && db.tasks[x.task.value].project == p
  }

  predicate VideoAssigned(x: Video, y: Video, now: Time) {
    && SameUpload(x, y) && y.assignedAt == Some(now)
    && y.manual == ManualPending && y.manualScore.None? && y.completedAt.None? && y.submittedReviews == 0
    && y.overall == match x.ai {
         case AiFailed => OverallFailed
         case AiPending => OverallPending
         case _ => OverallInProgress
       }
  }

  predicate HandedOut(db: Db, after: Db, task: TaskId, plan: map<VideoId, ScorerId>) {
    && VideosBut(db, after, plan.Keys) && after.manuals == db.manuals
    && (forall v :: v in plan && v in db.videos ==> VideoAssigned(db.videos[v], after.videos[v], db.now))
    && after.assignments.Keys == db.assignments.Keys + plan.Keys
    && (forall u :: u in db.assignments && u !in plan ==> after.assignments[u] == db.assignments[u])
    && (forall v :: v in plan ==>
          var a := after.assignments[v];
          && a.task == task && a.scorer == plan[v] && a.status == ReviewPending && a.assignedAt == db.now
          && a.startedAt.None? && a.submittedAt.None?)
  }

  predicate VideoScored(x: Video, y: Video, score: Score, submit: bool, now: Time) {
    && SameUpload(x, y) && y.assignedAt == x.assignedAt && y.manualScore == Some(score)
    && y.manual == (if submit then ManualSubmitted else ManualInProgress)
    && y.submittedReviews == (if submit then 1 else 0)
    && y.completedAt == (if submit && x.ai == AiCompleted then Some(now) else None)
    && y.overall == (if x.ai == AiFailed then OverallFailed
                     else if submit && x.ai == AiCompleted then OverallCompleted else OverallInProgress)
  }

  predicate AssignmentScored(a: Assignment, b: Assignment, submit: bool, now: Time) {
    && b.task == a.task && b.scorer == a.scorer && b.assignedAt == a.assignedAt
    && b.status == (if submit then ReviewSubmitted else ReviewInProgress)
    && b.startedAt == Some(if a.startedAt.Some? then a.startedAt.value else a.assignedAt)
    && b.submittedAt == if submit then Some(now) else a.submittedAt
  }

  /** The video's last evaluation row takes the score and keeps whose it is and since when; without one a row is added,
      of the assignment's scorer and since the review began. */
  ghost predicate RowScored(db: Db, after: Db, v: VideoId, score: Score, submit: bool)
    requires v in db.assignments
  {
    var a := db.assignments[v];
    if exists i :: RowAt(db.manuals, v, i) then
      && |after.manuals| == |db.manuals|
      && exists i ::
           && RowAt(db.manuals, v, i) && (forall j :: RowAt(db.manuals, v, j) ==> j <= i)
           && (forall j :: 0 <= j < |db.manuals| && j != i ==> after.manuals[j] == db.manuals[j])
           && after.manuals[i].video == v && after.manuals[i].scorer == db.manuals[i].scorer
           && after.manuals[i].startedAt == db.manuals[i].startedAt
           && RowTells(after.manuals[i], score, submit, db.now)
    else
      && |after.manuals| == |db.manuals| + 1 && after.manuals[..|db.manuals|] == db.manuals
      && after.manuals[|db.manuals|].video == v && after.manuals[|db.manuals|].scorer == a.scorer
      && after.manuals[|db.manuals|].startedAt == (if a.startedAt.Some? then a.startedAt.value else a.assignedAt)
      && RowTells(after.manuals[|db.manuals|], score, submit, db.now)
  }

  predicate RowTells(row: Manual, score: Score, submit: bool, now: Time) {
    row.total == score && row.submitted == submit && row.submittedAt == if submit then Some(now) else None
  }

  ghost predicate ScoreRecorded(db: Db, after: Db, v: VideoId, score: Score, submit: bool)
    requires v in db.videos && v in db.assignments
  {
    && VideosBut(db, after, {v}) && VideoScored(db.videos[v], after.videos[v], score, submit, db.now)
    && AssignmentsBut(db, after, {v}) && AssignmentScored(db.assignments[v], after.assignments[v], submit, db.now)
    && RowScored(db, after, v, score, submit)
  }

  predicate VideoClosed(x: Video, y: Video, now: Time) {
    && SameUpload(x, y) && y.assignedAt == x.assignedAt && y.manualScore == x.manualScore
    && y.manual == ManualSubmitted && y.submittedReviews == 1
    && y.completedAt == (if x.ai == AiCompleted then Some(now) else None)
    && y.overall == (if x.ai == AiFailed then OverallFailed
                     else if x.ai == AiCompleted then OverallCompleted else OverallInProgress)
  }

  predicate AssignmentClosed(a: Assignment, b: Assignment, now: Time) {
    && b.task == a.task && b.scorer == a.scorer && b.assignedAt == a.assignedAt && b.startedAt == a.startedAt
    && b.status == ReviewSubmitted && b.submittedAt == Some(now)
  }

  /** Just the drafts of this scorer in this task are submitted, each with the score it was saved with. */
  ghost predicate DraftsSubmitted(db: Db, after: Db, task: TaskId, scorer: ScorerId) {
    && after.videos.Keys == db.videos.Keys && after.assignments.Keys == db.assignments.Keys
    && |after.manuals| == |db.manuals|
    && (forall v :: v in db.videos ==>
          if DraftOf(db, task, scorer, v) then VideoClosed(db.videos[v], after.videos[v], db.now)
          else after.videos[v] == db.videos[v])
    && (forall v :: v in db.assignments ==>
          if DraftOf(db, task, scorer, v) then AssignmentClosed(db.assignments[v], after.assignments[v], db.now)
          else after.assignments[v] == db.assignments[v])
    && (forall i :: 0 <= i < |db.manuals| ==>
          if DraftOf(db, task, scorer, db.manuals[i].video) && !db.manuals[i].submitted
          then RowClosed(db.manuals[i], after.manuals[i], db.now) else after.manuals[i] == db.manuals[i])
  }

  predicate RowClosed(x: Manual, y: Manual, now: Time) {
    && y.video == x.video && y.scorer == x.scorer && y.startedAt == x.startedAt
    && RowTells(y, x.total, true, now)
  }

  predicate VideoEvaluated(x: Video, y: Video, outcome: AiOutcome, now: Time) {
    && SameReview(x, y)
    && y.ai == (match outcome case Began => AiProcessing case Finished(_) => AiCompleted case Failed => AiFailed)
    && y.aiScore == (if outcome.Finished? then outcome.score else x.aiScore)
    && y.completedAt == (if outcome.Finished? && x.manual == ManualSubmitted then Some(now) else None)
    && y.overall == (if outcome.Failed? then OverallFailed
                     else if outcome.Finished? && x.manual == ManualSubmitted then OverallCompleted
                     else OverallInProgress)
  }

  predicate NewVideo(y: Video, into: Option<TaskId>) {
    && y.task == into && !y.ready && y.manual == ManualPending && y.ai == AiPending && y.overall == OverallPending
    && y.manualScore.None? && y.aiScore.None? && y.assignedAt.None? && y.completedAt.None? && y.submittedReviews == 0
  }

  predicate MadeReady(x: Video, y: Video) {
    y.ready && SameUpload(x.(ready := true), y) && SameReview(x.(ready := true), y)
    && y.overall == x.overall && y.completedAt == x.completedAt
  }

  ghost predicate Leaves(db: Db, op: Op, after: Db)
    requires Accepts(db, op)
  {
    && after.now == db.now + 1
    && match op {
         case AddProject(p) =>
           && after.videos == db.videos && ReviewsStay(db, after) && after.tasks == db.tasks
           && after.projects == db.projects[p := Stats(0, 0)]
         case AddTask(t, p) =>
           && after.videos == db.videos && ReviewsStay(db, after) && after.projects == db.projects
           && after.tasks == db.tasks[t := Task(p, Stats(0, 0))]
         case Upload(v, into) =>
           && ReviewsStay(db, after) && CountersStay(db, after)
           && v in after.videos && NewVideo(after.videos[v], into) && after.videos - {v} == db.videos
         case Confirm(v) =>
           && ReviewsStay(db, after) && VideosBut(db, after, {v}) && MadeReady(db.videos[v], after.videos[v])
           && if db.videos[v].task.Some? then Recounted(db, after, db.videos[v].task.value) else CountersStay(db, after)
         case Ai(v, outcome) =>
           && ReviewsStay(db, after) && VideosBut(db, after, {v})
           && VideoEvaluated(db.videos[v], after.videos[v], outcome, db.now)
           && Recounted(db, after, db.videos[v].task.value)
         case Assign(task, plan) => HandedOut(db, after, task, plan) && CountersStay(db, after)
         case Reassign(task, plan) => HandedOut(db, after, task, plan) && CountersStay(db, after)
         case Draft(v, _, score) => ScoreRecorded(db, after, v, score, false) && CountersStay(db, after)
         case Submit(v, _, score) =>
           ScoreRecorded(db, after, v, score, true) && Recounted(db, after, db.videos[v].task.value)
         case SubmitSaved(task, scorer) => DraftsSubmitted(db, after, task, scorer) && Recounted(db, after, task)
       }
  }

  lemma RefreshRecounts(db: Db, mid: Db, t: TaskId)
    requires mid.tasks == db.tasks && mid.projects == db.projects
    ensures Recounted(db, Refresh(mid, t), t)
    ensures Refresh(mid, t).videos == mid.videos && ReviewsStay(mid, Refresh(mid, t)) && Refresh(mid, t).now == mid.now
  {
    if t in db.tasks {
      var p, after := db.tasks[t].project, Refresh(mid, t);
      assert TaskReady(mid.videos, t) == set v | v in after.videos && after.videos[v].ready && after.videos[v].task == Some(t);
      assert TaskDone(mid.videos, t) ==
             set v | v in after.videos && after.videos[v].ready && after.videos[v].task == Some(t)
                     && after.videos[v].overall == OverallCompleted;
      assert ProjectReady(mid.videos, after.tasks, p) ==
             set v | v in after.videos && after.videos[v].ready && OfProject(db, after.videos[v], p);
      assert ProjectDone(mid.videos, after.tasks, p) ==
             set v | v in after.videos && after.videos[v].ready && OfProject(db, after.videos[v], p)
                     && after.videos[v].overall == OverallCompleted;
    }
  }

  lemma {:induction false} RowBelowIsLast(manuals: seq<Manual>, v: VideoId, n: nat)
    requires n <= |manuals|
    ensures RowBelow(manuals, v, n).Some? ==> forall j :: RowBelow(manuals, v, n).value < j < n ==> manuals[j].video != v
    decreases n
  {
    if n > 0 && manuals[n - 1].video != v {
      RowBelowIsLast(manuals, v, n - 1);
    }
  }

  lemma ScoredRecords(db: Db, v: VideoId, score: Score, submit: bool)
    requires v in db.videos && v in db.assignments
    ensures ScoreRecorded(db, Scored(db, v, score, submit), v, score, submit)
  {
    var after := Scored(db, v, score, submit);
    RowBelowIsLast(db.manuals, v, |db.manuals|);
    var i := ManualOf(db.manuals, v);
    if i.Some? {
      assert RowAt(db.manuals, v, i.value);
    }
  }

  lemma SavedSubmits(db: Db, task: TaskId, scorer: ScorerId)
    ensures DraftsSubmitted(db, SavedSubmitted(db, Drafts(db, task, scorer)), task, scorer)
  {
    forall v ensures v in Drafts(db, task, scorer) <==> DraftOf(db, task, scorer, v) {
      DraftsIff(db, task, scorer, v);
    }
  }

  lemma AddsLeave(db: Db, op: Op)
    requires Accepts(db, op) && Allowed(db, op) && (op.AddProject? || op.AddTask? || op.Upload?)
    ensures Leaves(db, op, Apply(db, op))
  {
    if op.Upload? {
      assert db.videos[op.v := FreshVideo(op.into)] - {op.v} == db.videos;
    }
  }

  lemma AssignedHandsOut(db: Db, task: TaskId, plan: map<VideoId, ScorerId>)
    requires plan.Keys <= db.videos.Keys
    ensures HandedOut(db, Assigned(db, task, plan), task, plan) && CountersStay(db, Assigned(db, task, plan))
  {
  }

  lemma AssignsLeave(db: Db, op: Op)
    requires Accepts(db, op) && Allowed(db, op) && (op.Assign? || op.Reassign?)
    ensures Leaves(db, op, Apply(db, op))
  {
    hide Assigned, VideoAssigned, Assignable, Seen;
    AssignedHandsOut(db, op.task, op.plan);
  }

  lemma ConfirmLeaves(db: Db, v: VideoId)
    requires Accepts(db, Confirm(v)) && Allowed(db, Confirm(v))
    ensures Leaves(db, Confirm(v), Apply(db, Confirm(v)))
  {
    hide Refresh;
    if db.videos[v].task.Some? {
      RefreshRecounts(db, db.(videos := db.videos[v := db.videos[v].(ready := true)]), db.videos[v].task.value);
    }
  }

  lemma AiLeaves(db: Db, v: VideoId, outcome: AiOutcome)
    requires Accepts(db, Ai(v, outcome)) && Allowed(db, Ai(v, outcome))
    ensures Leaves(db, Ai(v, outcome), Apply(db, Ai(v, outcome)))
  {
    hide Refresh;
    RefreshRecounts(db, db.(videos := db.videos[v := AiWritten(db.videos[v], outcome, db.now)]), db.videos[v].task.value);
  }

  /** None of the recording is about counters or the clock. */
  lemma RecordedAlike(db: Db, a: Db, b: Db, v: VideoId, score: Score, submit: bool)
    requires v in db.videos && v in db.assignments && ScoreRecorded(db, a, v, score, submit)
    requires b.videos == a.videos && b.assignments == a.assignments && b.manuals == a.manuals
    ensures ScoreRecorded(db, b, v, score, submit)
  {
  }

  lemma DraftLeaves(db: Db, v: VideoId, scorer: ScorerId, score: Score)
    requires Accepts(db, Draft(v, scorer, score)) && Allowed(db, Draft(v, scorer, score))
    ensures Leaves(db, Draft(v, scorer, score), Apply(db, Draft(v, scorer, score)))
  {
    hide ScoreRecorded;
    ScoredRecords(db, v, score, false);
    RecordedAlike(db, Scored(db, v, score, false), Apply(db, Draft(v, scorer, score)), v, score, false);
  }

  lemma SubmitLeaves(db: Db, v: VideoId, scorer: ScorerId, score: Score)
    requires Accepts(db, Submit(v, scorer, score)) && Allowed(db, Submit(v, scorer, score))
    ensures Leaves(db, Submit(v, scorer, score), Apply(db, Submit(v, scorer, score)))
  {
    hide ScoreRecorded, Refresh;
    var mid := Scored(db, v, score, true);
    ScoredRecords(db, v, score, true);
    RefreshRecounts(db, mid, db.videos[v].task.value);
    RecordedAlike(db, mid, Apply(db, Submit(v, scorer, score)), v, score, true);
  }

  lemma SavedLeaves(db: Db, task: TaskId, scorer: ScorerId)
    requires Accepts(db, SubmitSaved(task, scorer)) && Allowed(db, SubmitSaved(task, scorer))
    ensures Leaves(db, SubmitSaved(task, scorer), Apply(db, SubmitSaved(task, scorer)))
  {
    hide Refresh, VideoClosed, AssignmentClosed, RowClosed, DraftOf, SubmittedVideo;
    SavedSubmits(db, task, scorer);
    RefreshRecounts(db, SavedSubmitted(db, Drafts(db, task, scorer)), task);
    hide SavedSubmitted;
  }

  /** Every accepted operation leaves just that, and a refused one changes nothing. */
  lemma ApplyLeaves(db: Db, op: Op)
    ensures if Accepts(db, op) then Leaves(db, op, Apply(db, op)) else Apply(db, op) == db
  {
    AllowedIff(db, op);
    if Accepts(db, op) {
      hide Leaves, Accepts, Allowed, Apply;
      match op {
        case Confirm(v) => ConfirmLeaves(db, v);
        case Ai(v, outcome) => AiLeaves(db, v, outcome);
        case Assign(_, _) => AssignsLeave(db, op);
        case Reassign(_, _) => AssignsLeave(db, op);
        case Draft(v, scorer, score) => DraftLeaves(db, v, scorer, score);
        case Submit(v, scorer, score) => SubmitLeaves(db, v, scorer, score);
        case SubmitSaved(task, scorer) => SavedLeaves(db, task, scorer);
        case _ => AddsLeave(db, op);
      }
    }
  }

  // ---- And the telling leaves nothing open

  lemma RecountIsExact(db: Db, a: Db, b: Db, t: TaskId)
    requires Recounted(db, a, t) && Recounted(db, b, t) && a.videos == b.videos
    ensures a.tasks == b.tasks && a.projects == b.projects
  {
    if t in db.tasks {
      var p := db.tasks[t].project;
      assert a.tasks[t] == b.tasks[t];
      assert a.projects[p] == b.projects[p];
    }
  }

  lemma RowScoredIsExact(db: Db, a: Db, b: Db, v: VideoId, score: Score, submit: bool)
    requires v in db.assignments && RowScored(db, a, v, score, submit) && RowScored(db, b, v, score, submit)
    ensures a.manuals == b.manuals
  {
    var n := |db.manuals|;
    if exists i :: RowAt(db.manuals, v, i) {
      forall j | 0 <= j < n ensures a.manuals[j] == b.manuals[j] {
      }
    } else {
      assert a.manuals == a.manuals[..n] + [a.manuals[n]] && b.manuals == b.manuals[..n] + [b.manuals[n]];
    }
  }

  lemma ReviewIsExact(db: Db, a: Db, b: Db, v: VideoId, score: Score, submit: bool)
    requires v in db.videos && v in db.assignments
    requires ScoreRecorded(db, a, v, score, submit) && ScoreRecorded(db, b, v, score, submit)
    ensures a.videos == b.videos && a.assignments == b.assignments && a.manuals == b.manuals
  {
    RowScoredIsExact(db, a, b, v, score, submit);
    hide RowScored;
    assert a.videos[v] == b.videos[v] && a.assignments[v] == b.assignments[v];
  }

  lemma HandOutIsExact(db: Db, a: Db, b: Db, task: TaskId, plan: map<VideoId, ScorerId>)
    requires plan.Keys <= db.videos.Keys && HandedOut(db, a, task, plan) && HandedOut(db, b, task, plan)
    ensures a.videos == b.videos && a.assignments == b.assignments && a.manuals == b.manuals
  {
    forall v | v in db.videos ensures a.videos[v] == b.videos[v] {
    }
    forall v | v in a.assignments ensures a.assignments[v] == b.assignments[v] {
    }
  }

  lemma DraftsAreExact(db: Db, a: Db, b: Db, task: TaskId, scorer: ScorerId)
    requires DraftsSubmitted(db, a, task, scorer) && DraftsSubmitted(db, b, task, scorer)
    ensures a.videos == b.videos && a.assignments == b.assignments && a.manuals == b.manuals
  {
    hide DraftOf;
    forall v | v in db.videos ensures a.videos[v] == b.videos[v] {
    }
    forall v | v in db.assignments ensures a.assignments[v] == b.assignments[v] {
    }
    forall i | 0 <= i < |db.manuals| ensures a.manuals[i] == b.manuals[i] {
    }
  }

  /** So whatever is left after an accepted operation is what `Apply` gives. */
  lemma LeavesIsExact(db: Db, op: Op, after: Db)
    requires Accepts(db, op) && Leaves(db, op, after)
    ensures after == Apply(db, op)
  {
    ApplyLeaves(db, op);
    var b := Apply(db, op);
    hide Apply, Recounted, ScoreRecorded, HandedOut, DraftsSubmitted, Accepts;
    OnlyOneLeft(db, op, after, b);
  }

  lemma OnlyOneLeft(db: Db, op: Op, a: Db, b: Db)
    requires Accepts(db, op) && Leaves(db, op, a) && Leaves(db, op, b)
    ensures a == b
  {
    hide Recounted, ScoreRecorded, HandedOut, DraftsSubmitted, VideoEvaluated;
    match op {
      case AddProject(_) =>
      case AddTask(_, _) =>
      case Upload(v, _) =>
        assert a.videos[v] == b.videos[v];
        assert a.videos == (a.videos - {v})[v := a.videos[v]] && b.videos == (b.videos - {v})[v := b.videos[v]];
      case Confirm(v) =>
        assert a.videos[v] == b.videos[v];
        if db.videos[v].task.Some? {
          RecountIsExact(db, a, b, db.videos[v].task.value);
        }
      case Ai(v, outcome) =>
        EvaluationIsExact(db.videos[v], a.videos[v], b.videos[v], outcome, db.now);
        RecountIsExact(db, a, b, db.videos[v].task.value);
      case Assign(task, plan) => HandOutIsExact(db, a, b, task, plan);
      case Reassign(task, plan) => HandOutIsExact(db, a, b, task, plan);
      case Draft(v, _, score) => ReviewIsExact(db, a, b, v, score, false);
      case Submit(v, _, score) =>
        ReviewIsExact(db, a, b, v, score, true);
        RecountIsExact(db, a, b, db.videos[v].task.value);
      case SubmitSaved(task, scorer) =>
        DraftsAreExact(db, a, b, task, scorer);
        RecountIsExact(db, a, b, task);
    }
  }

  lemma EvaluationIsExact(x: Video, y: Video, z: Video, outcome: AiOutcome, now: Time)
    requires VideoEvaluated(x, y, outcome, now) && VideoEvaluated(x, z, outcome, now)
    ensures y == z
  {
  }

  lemma RecordedRow(db: Db, after: Db, v: VideoId, score: Score, submit: bool)
    requires v in db.assignments && RowScored(db, after, v, score, submit) && Reviewed(after)
    ensures exists i :: RowAt(after.manuals, v, i) && RowTells(after.manuals[i], score, submit, db.now)
                        && forall j :: RowAt(after.manuals, v, j) ==> j == i
  {
    var i: int;
    if exists k :: RowAt(db.manuals, v, k) {
      i :| RowAt(db.manuals, v, i) && RowTells(after.manuals[i], score, submit, db.now) && after.manuals[i].video == v;
    } else {
      i := |db.manuals|;
    }
    assert RowAt(after.manuals, v, i);
    forall j | RowAt(after.manuals, v, j) ensures j == i {
      assert i < j || j < i || i == j;
    }
  }

  /** In every state that a history leads to, a draft or a submission that is accepted is what the video, its review and
      its only evaluation row then say. */
  lemma ScoreIsRecorded(ops: seq<Op>, v: VideoId, scorer: ScorerId, score: Score, submit: bool)
    requires Accepts(Exec(Empty(), ops), if submit then Submit(v, scorer, score) else Draft(v, scorer, score))
    ensures
      var db := Exec(Empty(), ops);
      var after := Apply(db, if submit then Submit(v, scorer, score) else Draft(v, scorer, score));
      && ScoreRecorded(db, after, v, score, submit)
      && exists i :: RowAt(after.manuals, v, i) && RowTells(after.manuals[i], score, submit, db.now)
                     && forall j :: RowAt(after.manuals, v, j) ==> j == i
  {
    hide Apply, Counted, Linked, Resolved, Reviewed, Recounted, RowScored, Exec;
    var db := Exec(Empty(), ops);
    var op := if submit then Submit(v, scorer, score) else Draft(v, scorer, score);
    HistoryInv(ops);
    ApplyLeaves(db, op);
    ApplyKeeps(db, op);
    RecordedRow(db, Apply(db, op), v, score, submit);
  }
}

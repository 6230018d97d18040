/**
 The service operations in the form the backend has them: methods that update rows one at a time, the
 multi-row ones in loops. Each is proved to do what the corresponding `Lifecycle` operation says, so
 everything proved about histories there holds of any sequence of calls here.
 */
module ReviewService {
  import opened Wrappers
  import opened EvaluationStatus
  import opened Lifecycle
  import opened ReviewEffects

  datatype Error =
    | VideoNotFound | VideoNotReady | VideoCompleted | TaskNotFound
    | ScoringTaskNotFound | ScoringTaskCompleted | TotalScoreInvalid | NoSavedDrafts

  class Service {
    var now: Time
    var videos: map<VideoId, Video>
    var assignments: map<VideoId, Assignment>
    var manuals: seq<Manual>
    var tasks: map<TaskId, Task>
    var projects: map<ProjectId, Stats>

    function View(): Db
      reads this
    {
      Db(now, videos, assignments, manuals, tasks, projects)
    }

    constructor ()
      ensures View() == Empty()
    {
      now, videos, assignments, manuals, tasks, projects := 0, map[], map[], [], map[], map[];
    }

    method RefreshVideoStats(t: TaskId) returns (found: bool)
      modifies this`tasks, this`projects
      ensures found == (t in old(tasks)) && View() == Refresh(old(View()), t)
      ensures Recounted(old(View()), View(), t)
    {
      RefreshRecounts(View(), View(), t);
      found := t in tasks;
      if found {
        var p := tasks[t].project;
        tasks := tasks[t := tasks[t].(stats := TaskStats(videos, t))];
        projects := projects[p := ProjectStats(videos, tasks, p)];
      }
    }

    method ConfirmUpload(v: VideoId) returns (r: Result<(), Error>)
      modifies this
      ensures View() == Apply(old(View()), Confirm(v))
      ensures Does(old(View()), View(), Confirm(v))
      ensures r == if v in old(videos) then Ok(()) else Err(VideoNotFound)
    {
      ApplyLeaves(View(), Confirm(v));
      hide Leaves;
      if v !in videos {
        return Err(VideoNotFound);
      }
      videos := videos[v := videos[v].(ready := true)];
      if videos[v].task.Some? {
        var _ := RefreshVideoStats(videos[v].task.value);
      }
      now := now + 1;
      r := Ok(());
    }

    /** The write that the AI module makes to a video when an evaluation begins, completes or fails. */
    method WriteAiStatus(v: VideoId, outcome: AiOutcome)
      requires v in videos && videos[v].ready && videos[v].task.Some?
      modifies this
      ensures View() == Apply(old(View()), Ai(v, outcome)) && Does(old(View()), View(), Ai(v, outcome))
    {
      ApplyLeaves(View(), Ai(v, outcome));
      hide Leaves;
      videos := videos[v := AiWritten(videos[v], outcome, now)];
      var _ := RefreshVideoStats(videos[v].task.value);
      now := now + 1;
    }

    /** The guard that assigning and reassigning run over the selected videos; the first that fails. */
    method ValidateAssignable(task: TaskId, ids: set<VideoId>, pendingOnly: bool) returns (r: Result<(), Error>)
      ensures r.Ok? <==> forall v :: v in ids ==> Selectable(View(), task, v) && (pendingOnly ==> Untouched(View(), v))
      ensures r.Err? && r.error == VideoNotFound <==>
                exists v :: v in ids && (v !in videos || videos[v].task != Some(task))
    {
      if !(forall v :: v in ids ==> v in videos && videos[v].task == Some(task)) {
        return Err(VideoNotFound);
      }
      var todo := ids;
      while todo != {}
        invariant todo <= ids
        invariant forall v :: v in ids - todo ==>
                    Selectable(View(), task, v) && (pendingOnly ==> Untouched(View(), v))
        decreases todo
      {
        var v :| v in todo;
        todo := todo - {v};
        if !videos[v].ready {
          return Err(VideoNotReady);
        }
        var seen := Seen(View(), v);
        if seen.overall == OverallCompleted || seen.manual == ManualSubmitted {
          return Err(VideoCompleted);
        }
        if pendingOnly && seen.manual != ManualPending {
          return Err(VideoCompleted);
        }
      }
      r := Ok(());
    }

    method WriteAssignment(task: TaskId, v: VideoId, scorer: ScorerId)
      requires v in videos
      modifies this`videos, this`assignments
      ensures videos == old(videos)[v := AssignedVideo(old(videos)[v], now)]
      ensures assignments == old(assignments)[v := Assignment(task, scorer, ReviewPending, now, None, None)]
    {
      var overall := ResolveOverall(ManualPending, videos[v].ai);
      assignments := assignments[v := Assignment(task, scorer, ReviewPending, now, None, None)];
      videos := videos[v := videos[v].(
        assignedAt := Some(now), overall := overall, manual := ManualPending,
        completedAt := None, manualScore := None, submittedReviews := 0)];
    }

    /** Writes the planned assignments one video after another, in whatever order the plan is walked. */
    method WriteAssignments(task: TaskId, plan: map<VideoId, ScorerId>)
      requires plan.Keys <= videos.Keys
      modifies this`videos, this`assignments
      ensures View() == Assigned(old(View()), task, plan)
    {
      ghost var db := View();
      var todo := plan.Keys;
      ghost var done: map<VideoId, ScorerId> := map[];
      hide Assigned;
      AssignNothing(db, task);
      while todo != {}
        invariant todo <= plan.Keys && plan.Keys <= db.videos.Keys
        invariant done.Keys == plan.Keys - todo && forall v :: v in done ==> done[v] == plan[v]
        invariant videos == Assigned(db, task, done).videos && assignments == Assigned(db, task, done).assignments
        decreases todo
      {
        var v :| v in todo;
        todo := todo - {v};
        AssignTouches(db, task, done);
        WriteAssignment(task, v, plan[v]);
        AssignOneMore(db, task, done, v, plan[v]);
        done := done[v := plan[v]];
      }
      assert done == plan;
      AssignTouches(db, task, plan);
    }

    method AssignScorers(task: TaskId, plan: map<VideoId, ScorerId>) returns (r: Result<(), Error>)
      modifies this
      ensures View() == Apply(old(View()), Assign(task, plan)) && Does(old(View()), View(), Assign(task, plan))
      ensures r.Ok? <==> Accepts(old(View()), Assign(task, plan))
      ensures task !in old(tasks) ==> r == Err(TaskNotFound)
    {
      ApplyLeaves(View(), Assign(task, plan));
      AllowedIff(View(), Assign(task, plan));
      hide Leaves;
      if task !in tasks {
        return Err(TaskNotFound);
      }
      r := ValidateAssignable(task, plan.Keys, false);
      if r.Ok? {
        WriteAssignments(task, plan);
        now := now + 1;
      }
    }

    method ReassignPendingVideos(task: TaskId, plan: map<VideoId, ScorerId>) returns (r: Result<(), Error>)
      modifies this
      ensures View() == Apply(old(View()), Reassign(task, plan)) && Does(old(View()), View(), Reassign(task, plan))
      ensures r.Ok? <==> Accepts(old(View()), Reassign(task, plan))
      ensures task !in old(tasks) ==> r == Err(TaskNotFound)
    {
      ApplyLeaves(View(), Reassign(task, plan));
      AllowedIff(View(), Reassign(task, plan));
      hide Leaves;
      if task !in tasks {
        return Err(TaskNotFound);
      }
      r := ValidateAssignable(task, plan.Keys, true);
      if r.Ok? {
        WriteAssignments(task, plan);
        now := now + 1;
      }
    }

    method FindAssigned(v: VideoId, scorer: ScorerId) returns (r: Result<(), Error>)
      ensures r.Ok? <==> Mine(View(), v, scorer)
      ensures r == Err(ScoringTaskCompleted) <==>
                v in videos && videos[v].task.Some? && v in assignments && assignments[v].scorer == scorer
                && assignments[v].status == ReviewSubmitted
    {
      if !(v in videos && v in assignments && assignments[v].scorer == scorer && videos[v].task.Some?) {
        return Err(ScoringTaskNotFound);
      }
      var seen := Seen(View(), v);
      if seen.overall == OverallCompleted || seen.manual == ManualSubmitted {
        return Err(ScoringTaskCompleted);
      }
      r := Ok(());
    }

    /** The evaluation row is rewritten or created, then the assignment, then the video. */
    method WriteScore(v: VideoId, score: Score, submit: bool)
      requires v in videos && v in assignments
      modifies this`videos, this`assignments, this`manuals
      ensures View() == Scored(old(View()), v, score, submit)
      ensures ScoreRecorded(old(View()), View(), v, score, submit)
    {
      ScoredRecords(View(), v, score, submit);
      hide ScoreRecorded;
      var a := assignments[v];
      var start := if a.startedAt.Some? then a.startedAt.value else a.assignedAt;
      var i := ManualOf(manuals, v);
      if i.None? {
        manuals := manuals + [Manual(v, a.scorer, submit, score, start, if submit then Some(now) else None)];
      } else {
        manuals := manuals[i.value := manuals[i.value].(
          submitted := submit, total := score, submittedAt := if submit then Some(now) else None)];
      }
      if submit {
        assignments := assignments[v := a.(status := ReviewSubmitted, startedAt := Some(start), submittedAt := Some(now))];
      } else {
        assignments := assignments[v := a.(status := ReviewInProgress, startedAt := Some(start))];
      }
      var manual := if submit then ManualSubmitted else ManualInProgress;
      var overall := ResolveOverall(manual, videos[v].ai);
      videos := videos[v := videos[v].(
        manualScore := Some(score), manual := manual, overall := overall,
        completedAt := if submit then ResolveCompletedAt(overall, now) else None,
        submittedReviews := if submit then 1 else 0)];
    }

    method SaveTaskDraft(v: VideoId, scorer: ScorerId, score: Score) returns (r: Result<(), Error>)
      modifies this
      ensures View() == Apply(old(View()), Draft(v, scorer, score)) && Does(old(View()), View(), Draft(v, scorer, score))
      ensures r.Ok? <==> Accepts(old(View()), Draft(v, scorer, score))
      ensures r.Ok? ==> ScoreRecorded(old(View()), View(), v, score, false)
      ensures score < 0 ==> r == Err(TotalScoreInvalid)
    {
      ApplyLeaves(View(), Draft(v, scorer, score));
      AllowedIff(View(), Draft(v, scorer, score));
      hide ScoreRecorded;
      if score < 0 {
        return Err(TotalScoreInvalid);
      }
      r := FindAssigned(v, scorer);
      if r.Ok? {
        WriteScore(v, score, false);
        now := now + 1;
      }
    }

    method SubmitTask(v: VideoId, scorer: ScorerId, score: Score) returns (r: Result<(), Error>)
      modifies this
      ensures View() == Apply(old(View()), Submit(v, scorer, score)) && Does(old(View()), View(), Submit(v, scorer, score))
      ensures r.Ok? <==> Accepts(old(View()), Submit(v, scorer, score))
      ensures r.Ok? ==> ScoreRecorded(old(View()), View(), v, score, true)
      ensures score < 0 ==> r == Err(TotalScoreInvalid)
    {
      ApplyLeaves(View(), Submit(v, scorer, score));
      AllowedIff(View(), Submit(v, scorer, score));
      hide ScoreRecorded;
      if score < 0 {
        return Err(TotalScoreInvalid);
      }
      r := FindAssigned(v, scorer);
      if r.Ok? {
        WriteScore(v, score, true);
        var _ := RefreshVideoStats(videos[v].task.value);
        now := now + 1;
      }
    }

    method SubmitDraft(v: VideoId)
      requires v in videos && v in assignments
      modifies this`videos, this`assignments, this`manuals
      ensures View() == SavedSubmitted(old(View()), {v})
    {
      ghost var db := View();
      var rows, at := manuals, now;
      manuals := seq(|rows|, i requires 0 <= i < |rows| =>
        if rows[i].video == v && !rows[i].submitted
        then rows[i].(submitted := true, submittedAt := Some(at)) else rows[i]);
      assignments := assignments[v := assignments[v].(status := ReviewSubmitted, submittedAt := Some(now))];
      var overall := ResolveOverall(ManualSubmitted, videos[v].ai);
      videos := videos[v := videos[v].(
        manual := ManualSubmitted, overall := overall, completedAt := ResolveCompletedAt(overall, now),
        submittedReviews := 1)];
      assert manuals == SavedSubmitted(db, {v}).manuals;
      assert assignments == SavedSubmitted(db, {v}).assignments;
      assert videos == SavedSubmitted(db, {v}).videos;
    }

    /** Submits drafts one after another, in whatever order they are listed. */
    method SubmitSavedDrafts(drafts: set<VideoId>) returns (count: nat)
      requires drafts <= videos.Keys && drafts <= assignments.Keys
      modifies this`videos, this`assignments, this`manuals
      ensures View() == SavedSubmitted(old(View()), drafts) && count == |drafts|
    {
      ghost var db := View();
      var todo := drafts;
      count := 0;
      NoDraftsNoChange(db);
      while todo != {}
        invariant todo <= drafts && count + |todo| == |drafts|
        invariant videos.Keys == db.videos.Keys && assignments.Keys == db.assignments.Keys
        invariant View() == SavedSubmitted(db, drafts - todo)
        decreases todo
      {
        var v :| v in todo;
        SubmitOneMore(db, drafts - todo, v);
        assert drafts - (todo - {v}) == drafts - todo + {v};
        todo := todo - {v};
        SubmitDraft(v);
        count := count + 1;
      }
      assert drafts - todo == drafts;
    }

    method SubmitSavedTask(task: TaskId, scorer: ScorerId) returns (r: Result<nat, Error>)
      modifies this
      ensures View() == Apply(old(View()), SubmitSaved(task, scorer))
      ensures Does(old(View()), View(), SubmitSaved(task, scorer))
      ensures r == if !Accepts(old(View()), SubmitSaved(task, scorer)) then Err(NoSavedDrafts)
                   else Ok(|set v | v in old(videos) && DraftOf(old(View()), task, scorer, v)|)
    {
      ApplyLeaves(View(), SubmitSaved(task, scorer));
      DraftsAreTheirs(View(), task, scorer);
      hide Leaves, DraftOf, SavedSubmitted, Drafted, Refresh, Accepts;
      var drafts := Drafts(View(), task, scorer);
      if drafts == {} {
        return Err(NoSavedDrafts);
      }
      var count := SubmitSavedDrafts(drafts);
      var _ := RefreshVideoStats(task);
      now := now + 1;
      r := Ok(count);
    }
  }

  /** The operation's outcome: what it leaves if it is accepted, and otherwise no change. */
  ghost predicate Does(db: Db, after: Db, op: Op) { if Accepts(db, op) then Leaves(db, op, after) else after == db }

  lemma NoDraftsNoChange(db: Db)
    ensures SavedSubmitted(db, {}) == db
  {
    var r := SavedSubmitted(db, {});
    assert r.videos == db.videos && r.assignments == db.assignments && r.manuals == db.manuals;
  }

  lemma AssignOneMore(db: Db, task: TaskId, done: map<VideoId, ScorerId>, v: VideoId, scorer: ScorerId)
    requires v in db.videos && v !in done
    ensures
      var mid, next := Assigned(db, task, done), Assigned(db, task, done[v := scorer]);
      && next.videos == mid.videos[v := AssignedVideo(mid.videos[v], db.now)]
      && next.assignments == mid.assignments[v := Assignment(task, scorer, ReviewPending, db.now, None, None)]
  {
    hide Pending;
    PendingOneMore(task, done, v, scorer, db.now);
    MergeOneMore(db.assignments, Pending(task, done, db.now), v, Assignment(task, scorer, ReviewPending, db.now, None, None));
    VideosOneMore(db, task, done, v, scorer);
  }

  lemma AssignNothing(db: Db, task: TaskId)
    ensures Assigned(db, task, map[]).videos == db.videos && Assigned(db, task, map[]).assignments == db.assignments
  {
  }

  lemma AssignTouches(db: Db, task: TaskId, plan: map<VideoId, ScorerId>)
    ensures var r := Assigned(db, task, plan);
      r.videos.Keys == db.videos.Keys && r == db.(videos := r.videos, assignments := r.assignments)
  {
  }

  lemma VideosOneMore(db: Db, task: TaskId, done: map<VideoId, ScorerId>, v: VideoId, scorer: ScorerId)
    requires v in db.videos && v !in done
    ensures
      var mid, next := Assigned(db, task, done), Assigned(db, task, done[v := scorer]);
      next.videos == mid.videos[v := AssignedVideo(mid.videos[v], db.now)]
  {
    hide AssignedVideo, Pending;
  }

  lemma PendingOneMore(task: TaskId, done: map<VideoId, ScorerId>, v: VideoId, scorer: ScorerId, at: Time)
    requires v !in done
    ensures Pending(task, done[v := scorer], at) ==
              Pending(task, done, at)[v := Assignment(task, scorer, ReviewPending, at, None, None)]
  {
  }

  lemma MergeOneMore<K, V>(m: map<K, V>, n: map<K, V>, k: K, x: V)
    ensures m + n[k := x] == (m + n)[k := x]
  {
  }

  /** Submitting a set of drafts is submitting all but one and then that one. */
  lemma SubmitOneMore(db: Db, before: set<VideoId>, v: VideoId)
    requires v !in before
    ensures SavedSubmitted(SavedSubmitted(db, before), {v}) == SavedSubmitted(db, before + {v})
  {
    var step, goal := SavedSubmitted(SavedSubmitted(db, before), {v}), SavedSubmitted(db, before + {v});
    assert step.manuals == goal.manuals;
    assert step.assignments == goal.assignments;
    assert step.videos == goal.videos;
  }
}

/**
 What `StaleStatus` cuts into reads and writes is, when nobody comes in between, what `Lifecycle` does in one piece:
 a review is assigned, drafted or submitted, or an AI status is written, with the same guard and the same columns.
 */
module StatusRefinement {
  import opened Wrappers
  import opened EvaluationStatus
  import opened Lifecycle
  import opened ReviewEffects
  import S = StaleStatus

  /** The protocol's state shows this video, with no operation under way. */
  ghost predicate Shows(s: S.State, db: Db, v: VideoId) {
    && v in db.videos
    && s.manual == db.videos[v].manual && s.ai == db.videos[v].ai && s.overall == db.videos[v].overall
    && s.completedAt == db.videos[v].completedAt
    && s.scorer == (if v in db.assignments then Some(db.assignments[v].scorer) else None)
    && (s.rows == 0 || s.rows == 1) && (s.rows == 1 <==> exists i :: RowAt(db.manuals, v, i))
    && s.pending == map[]
  }

  lemma Steps(s: S.State, es: seq<S.Event>, m: S.State, e: S.Event)
    requires S.Run(s, es, m) && S.Enabled(m, e)
    ensures S.Run(s, es + [e], S.Next(m, e))
  {
    hide S.Enabled, S.Next;
    var t := S.Next(m, e);
    assert [e][1..] == [] && S.Run(t, [], t) && S.Run(m, [e], t);
    S.RunConcat(s, es, m, [e], t);
  }

  function Target(submit: bool): ManualStatus { if submit then ManualSubmitted else ManualInProgress }

  function Scoring(v: VideoId, who: ScorerId, score: Score, submit: bool): Op {
    if submit then Submit(v, who, score) else Draft(v, who, score)
  }

  /** What the invariant says of one video. */
  lemma OneVideo(db: Db, v: VideoId)
    requires Inv(db) && v in db.videos
    ensures ReviewAgrees(db, v) && Agrees(db.videos[v])
    ensures v in db.assignments ==> db.videos[v].task == Some(db.assignments[v].task)
  {
    hide ReviewAgrees, Agrees, Counted;
  }

  lemma ScoringGuard(db: Db, v: VideoId, who: ScorerId, score: Score, submit: bool, s: S.State)
    requires Inv(db) && Shows(s, db, v) && score >= 0
    ensures Accepts(db, Scoring(v, who, score, submit)) <==> S.Enabled(s, S.Look(0, Target(submit), who))
  {
    assert v in db.videos;
    hide *;
    OneVideo(db, v);
    MineIff(db, v, who, s);
    AcceptsScoring(db, v, who, score, submit);
    Looks(s, who, submit);
  }

  lemma AcceptsScoring(db: Db, v: VideoId, who: ScorerId, score: Score, submit: bool)
    requires score >= 0
    ensures Accepts(db, Scoring(v, who, score, submit)) <==> Mine(db, v, who)
  {
    hide Mine;
  }

  lemma Looks(s: S.State, who: ScorerId, submit: bool)
    requires s.pending == map[]
    ensures S.Enabled(s, S.Look(0, Target(submit), who)) <==> s.scorer == Some(who) && s.manual != ManualSubmitted
  {
  }

  lemma MineIff(db: Db, v: VideoId, who: ScorerId, s: S.State)
    requires Shows(s, db, v) && ReviewAgrees(db, v)
    requires v in db.assignments ==> db.videos[v].task == Some(db.assignments[v].task)
    ensures Mine(db, v, who) <==> s.scorer == Some(who) && s.manual != ManualSubmitted
    ensures s.pending == map[]
  {
    hide RowAt;
  }

  /** A draft or a submission. */
  lemma ScoringRefines(db: Db, v: VideoId, who: ScorerId, score: Score, submit: bool, s: S.State) returns (t: S.State)
    requires Inv(db) && Shows(s, db, v) && db.now == s.now + 3
    requires Accepts(db, Scoring(v, who, score, submit))
    ensures S.Run(s, [S.Look(0, Target(submit), who), S.LookAgain(0), S.Find(0), S.Write(0)], t)
    ensures Shows(t, Apply(db, Scoring(v, who, score, submit)), v)
  {
    assert s.pending == map[] && score >= 0 && Target(submit) != ManualPending;
    assert Target(submit) == ManualSubmitted <==> submit;
    hide *;
    ScoringGuard(db, v, who, score, submit, s);
    t := ScoringSteps(s, Target(submit), who);
    ScoringRecords(db, v, who, score, submit);
    ScoredShows(db, Apply(db, Scoring(v, who, score, submit)), v, score, submit, s, t);
  }

  lemma ScoringRecords(db: Db, v: VideoId, who: ScorerId, score: Score, submit: bool)
    requires Accepts(db, Scoring(v, who, score, submit))
    ensures v in db.videos && v in db.assignments
    ensures ScoreRecorded(db, Apply(db, Scoring(v, who, score, submit)), v, score, submit)
  {
    ApplyLeaves(db, Scoring(v, who, score, submit));
    hide Apply, ScoreRecorded, Recounted;
  }

  lemma ScoringSteps(s: S.State, target: ManualStatus, who: ScorerId) returns (t: S.State)
    requires s.pending == map[] && target != ManualPending && S.Enabled(s, S.Look(0, target, who))
    ensures S.Run(s, [S.Look(0, target, who), S.LookAgain(0), S.Find(0), S.Write(0)], t)
    ensures
      var overall := ResolveOverall(target, s.ai);
      t == s.(now := s.now + 4, manual := target, overall := overall, rows := if s.rows == 0 then 1 else s.rows,
              completedAt := if target == ManualSubmitted then ResolveCompletedAt(overall, s.now + 3) else None)
  {
    var e1, e2, e3, e4 := S.Look(0, target, who), S.LookAgain(0), S.Find(0), S.Write(0);
    assert S.Run(s, [], s);
    hide S.Run, ResolveOverall, ResolveCompletedAt;
    var s1 := S.Next(s, e1);
    Steps(s, [], s, e1);
    var s2 := S.Next(s1, e2);
    Steps(s, [] + [e1], s1, e2);
    var s3 := S.Next(s2, e3);
    Steps(s, [] + [e1] + [e2], s2, e3);
    t := S.Next(s3, e4);
    Steps(s, [] + [e1] + [e2] + [e3], s3, e4);
    assert [] + [e1] + [e2] + [e3] + [e4] == [e1, e2, e3, e4];
  }

  lemma ScoredShows(db: Db, after: Db, v: VideoId, score: Score, submit: bool, s: S.State, t: S.State)
    requires v in db.videos && v in db.assignments && Shows(s, db, v) && db.now == s.now + 3
    requires ScoreRecorded(db, after, v, score, submit)
    requires
      var overall := ResolveOverall(Target(submit), s.ai);
      t == s.(now := s.now + 4, manual := Target(submit), overall := overall, rows := if s.rows == 0 then 1 else s.rows,
              completedAt := if submit then ResolveCompletedAt(overall, s.now + 3) else None)
    ensures Shows(t, after, v)
  {
    if i :| RowAt(db.manuals, v, i) {
      var k :| RowAt(db.manuals, v, k) && after.manuals[k].video == v;
      assert RowAt(after.manuals, v, k);
    } else {
      assert RowAt(after.manuals, v, |db.manuals|);
    }
  }

  /** Assigning, first or anew, every video of the plan. */
  lemma AssigningRefines(db: Db, op: Op, v: VideoId, s: S.State) returns (t: S.State)
    requires Inv(db) && Shows(s, db, v) && db.now == s.now + 2
    requires (op.Assign? || op.Reassign?) && Accepts(db, op) && v in op.plan
    ensures S.Run(s, [S.Look(0, ManualPending, op.plan[v]), S.LookAgain(0), S.Write(0)], t)
    ensures Shows(t, Apply(db, op), v)
  {
    assert v in db.videos && s.pending == map[];
    hide *;
    OneVideo(db, v);
    OpenIsNotSubmitted(db, v, s);
    HandsOut(db, op);
    t := AssigningSteps(s, op.plan[v]);
    HandedShows(db, Apply(db, op), op.task, op.plan, v, s, t);
  }

  lemma HandsOut(db: Db, op: Op)
    requires (op.Assign? || op.Reassign?) && Accepts(db, op)
    ensures HandedOut(db, Apply(db, op), op.task, op.plan)
    ensures forall v :: v in op.plan ==> Open(db, v)
  {
    ApplyLeaves(db, op);
    hide Apply, HandedOut, Open;
  }

  lemma OpenIsNotSubmitted(db: Db, v: VideoId, s: S.State)
    requires Shows(s, db, v) && ReviewAgrees(db, v) && Agrees(db.videos[v])
    ensures Open(db, v) <==> s.manual != ManualSubmitted
  {
    hide RowAt;
  }

  lemma AssigningSteps(s: S.State, who: ScorerId) returns (t: S.State)
    requires s.pending == map[] && s.manual != ManualSubmitted
    ensures S.Run(s, [S.Look(0, ManualPending, who), S.LookAgain(0), S.Write(0)], t)
    ensures t == s.(now := s.now + 3, manual := ManualPending, overall := ResolveOverall(ManualPending, s.ai),
                    scorer := Some(who), completedAt := None)
  {
    var e1, e2, e3 := S.Look(0, ManualPending, who), S.LookAgain(0), S.Write(0);
    assert S.Run(s, [], s);
    hide S.Run, ResolveOverall;
    var s1 := S.Next(s, e1);
    Steps(s, [], s, e1);
    var s2 := S.Next(s1, e2);
    Steps(s, [] + [e1], s1, e2);
    t := S.Next(s2, e3);
    Steps(s, [] + [e1] + [e2], s2, e3);
    assert [] + [e1] + [e2] + [e3] == [e1, e2, e3];
  }

  lemma HandedShows(db: Db, after: Db, task: TaskId, plan: map<VideoId, ScorerId>, v: VideoId, s: S.State, t: S.State)
    requires v in db.videos && v in plan && Shows(s, db, v)
    requires HandedOut(db, after, task, plan)
    requires t == s.(now := s.now + 3, manual := ManualPending, overall := ResolveOverall(ManualPending, s.ai),
                     scorer := Some(plan[v]), completedAt := None)
    ensures Shows(t, after, v)
  {
    hide RowAt;
  }

  /** The guard on assigning a video, when it is one of the task's and uploaded. */
  lemma AssigningGuard(db: Db, task: TaskId, v: VideoId, who: ScorerId, s: S.State)
    requires Inv(db) && Shows(s, db, v)
    requires task in db.tasks && db.videos[v].task == Some(task) && db.videos[v].ready
    ensures S.Enabled(s, S.Look(0, ManualPending, who))
    ensures Accepts(db, Assign(task, map[v := who])) <==>
              S.Enabled(S.Next(s, S.Look(0, ManualPending, who)), S.LookAgain(0))
  {
    OneVideo(db, v);
    OpenIsNotSubmitted(db, v, s);
    AcceptsOne(db, task, v, who);
    LooksAgain(s, who);
    hide Inv, ReviewAgrees, Agrees, Open, Accepts, S.Enabled, S.Next;
  }

  lemma AcceptsOne(db: Db, task: TaskId, v: VideoId, who: ScorerId)
    requires task in db.tasks && v in db.videos && db.videos[v].task == Some(task) && db.videos[v].ready
    ensures Accepts(db, Assign(task, map[v := who])) <==> Open(db, v)
  {
    hide Open;
    assert v in map[v := who];
  }

  lemma LooksAgain(s: S.State, who: ScorerId)
    requires s.pending == map[]
    ensures S.Enabled(s, S.Look(0, ManualPending, who))
    ensures S.Enabled(S.Next(s, S.Look(0, ManualPending, who)), S.LookAgain(0)) <==> s.manual != ManualSubmitted
  {
  }

  function AiOf(outcome: AiOutcome): S.AiOutcome {
    match outcome case Began => AiProcessing case Finished(_) => AiCompleted case Failed => AiFailed
  }

  /** An AI status. */
  lemma AiRefines(db: Db, v: VideoId, outcome: AiOutcome, s: S.State) returns (t: S.State)
    requires Shows(s, db, v) && db.now == s.now + 1 && Accepts(db, Ai(v, outcome))
    ensures S.Run(s, [S.ReadForAi(0, AiOf(outcome)), S.Write(0)], t)
    ensures Shows(t, Apply(db, Ai(v, outcome)), v)
  {
    ApplyLeaves(db, Ai(v, outcome));
    t := AiSteps(s, AiOf(outcome));
    var after := Apply(db, Ai(v, outcome));
    assert ReviewsStay(db, after) && VideosBut(db, after, {v}) && VideoEvaluated(db.videos[v], after.videos[v], outcome, db.now);
    hide Apply, Accepts;
    EvaluatedShows(db, after, v, outcome, s, t);
  }

  lemma AiSteps(s: S.State, outcome: S.AiOutcome) returns (t: S.State)
    requires s.pending == map[]
    ensures S.Run(s, [S.ReadForAi(0, outcome), S.Write(0)], t)
    ensures
      var overall := ResolveOverall(s.manual, outcome);
      t == s.(now := s.now + 2, ai := outcome, overall := overall, completedAt := ResolveCompletedAt(overall, s.now + 1))
  {
    var e1, e2 := S.ReadForAi(0, outcome), S.Write(0);
    assert S.Run(s, [], s);
    hide S.Run, ResolveOverall, ResolveCompletedAt;
    var s1 := S.Next(s, e1);
    Steps(s, [], s, e1);
    t := S.Next(s1, e2);
    Steps(s, [] + [e1], s1, e2);
    assert [] + [e1] + [e2] == [e1, e2];
  }

  lemma EvaluatedShows(db: Db, after: Db, v: VideoId, outcome: AiOutcome, s: S.State, t: S.State)
    requires v in db.videos && Shows(s, db, v) && db.now == s.now + 1
    requires ReviewsStay(db, after) && VideosBut(db, after, {v})
    requires VideoEvaluated(db.videos[v], after.videos[v], outcome, db.now)
    requires
      var overall := ResolveOverall(s.manual, AiOf(outcome));
      t == s.(now := s.now + 2, ai := AiOf(outcome), overall := overall,
              completedAt := ResolveCompletedAt(overall, s.now + 1))
    ensures Shows(t, after, v)
  {
    hide RowAt;
  }
}

/**
 The status columns of one video and the evaluation rows of its assignment when operations are not undisturbed. An
 AI operation reads the manual status and writes later; a review operation makes its reads one after the other,
 passes its guard at one of them, looks for an evaluation row and writes later; any number of them interleave and
 may stop anywhere. `manual` stands for the video's manual status and its assignment's status, which every review
 operation writes together.
 */
module StaleStatus {
  import opened Wrappers
  import opened EvaluationStatus

  type Proc = nat
  type ScorerId = nat

  /** What an AI operation may write; nothing sets a video back to pending. */
  type AiOutcome = a: AiStatus | a != AiPending witness AiFailed

  /** How far an operation is. A review writes pending when it assigns, in progress when it saves a draft, submitted
      when it submits; `who` is the scorer that it assigns the video to, or that drafts or submits.
      `AiWrite`: has read the manual status; `Looked`: has made the first of its two reads; `Read`: has made both and
      passed its guard; `ReviewWrite`: is about to write, and inserts an evaluation row if it is `inserts`. */
  datatype Pending =
    | AiWrite(manual: ManualStatus, outcome: AiOutcome)
    | Looked(ai: AiStatus, target: ManualStatus, who: ScorerId)
    | Read(ai: AiStatus, target: ManualStatus, who: ScorerId)
    | ReviewWrite(ai: AiStatus, target: ManualStatus, who: ScorerId, inserts: bool)

  /** `scorer`: whom the video is assigned to; `rows`: evaluation rows of the assignment, which is the same one however
      often it changes hands; `unique`: whether the database refuses a second one. */
  datatype State = State(
    now: Time, manual: ManualStatus, ai: AiStatus, overall: OverallStatus, completedAt: Option<Time>,
    scorer: Option<ScorerId>, rows: nat, unique: bool, pending: map<Proc, Pending>)

  datatype Event =
    | ReadForAi(p: Proc, outcome: AiOutcome)
    | Look(p: Proc, target: ManualStatus, who: ScorerId)
    | LookAgain(p: Proc)
    | Find(p: Proc)
    | Write(p: Proc)
    | Abandon(p: Proc)

  function Init(unique: bool): State {
    State(0, ManualPending, AiPending, OverallPending, None, None, 0, unique, map[])
  }

  /** The database refuses the row that the operation would insert. */
  predicate Blocked(s: State, w: Pending) { s.unique && s.rows > 0 && w.ReviewWrite? && w.inserts }

  /** Drafts and submissions read the assignment, which is what their guard is about, before the video; assigning
      reads the video before the assignment. The guard resolves the overall status from what was read, not from the
      stored one, and so comes down to the assignment's status. A draft or a submission finds the assignment of its
      scorer again before it looks for an evaluation row, whatever its status. */
  predicate Enabled(s: State, e: Event) {
    match e
    case ReadForAi(p, _) => p !in s.pending
    case Look(p, target, who) =>
      p !in s.pending && (target == ManualPending || (s.scorer == Some(who) && s.manual != ManualSubmitted))
    case LookAgain(p) =>
      && p in s.pending && s.pending[p].Looked?
      && (s.pending[p].target != ManualPending || s.manual != ManualSubmitted)
    case Find(p) => p in s.pending && s.pending[p].Read? && s.scorer == Some(s.pending[p].who)
    case Write(p) => p in s.pending && CanWrite(s, s.pending[p])
    case Abandon(p) => p in s.pending
  }

  predicate CanWrite(s: State, w: Pending) { (w.AiWrite? || w.ReviewWrite?) && !Blocked(s, w) }

  function Written(s: State, w: Pending): State
    requires CanWrite(s, w)
  {
    match w
    case AiWrite(manual, outcome) =>
      var overall := ResolveOverall(manual, outcome);
      s.(ai := outcome, overall := overall, completedAt := ResolveCompletedAt(overall, s.now))
    case ReviewWrite(ai, target, who, inserts) =>
      var overall := ResolveOverall(target, ai);
      s.(manual := target, overall := overall, rows := s.rows + if inserts then 1 else 0,
         scorer := if target == ManualPending then Some(who) else s.scorer,
         completedAt := if target == ManualSubmitted then ResolveCompletedAt(overall, s.now) else None)
  }

  function SetPending(s: State, p: Proc, w: Pending): State { s.(pending := s.pending[p := w], now := s.now + 1) }

  function Next(s: State, e: Event): State
    requires Enabled(s, e)
  {
    match e
    case ReadForAi(p, outcome) => SetPending(s, p, AiWrite(s.manual, outcome))
    case Look(p, target, who) => SetPending(s, p, Looked(s.ai, target, who))
    case LookAgain(p) =>
      var Looked(ai, target, who) := s.pending[p];
      SetPending(s, p,
        if target == ManualPending then ReviewWrite(ai, target, who, false) else Read(s.ai, target, who))
    case Find(p) =>
      var Read(ai, target, who) := s.pending[p];
      SetPending(s, p, ReviewWrite(ai, target, who, s.rows == 0))
    case Write(p) => Written(s, s.pending[p]).(pending := s.pending - {p}, now := s.now + 1)
    case Abandon(p) => s.(pending := s.pending - {p}, now := s.now + 1)
  }

  predicate Run(s: State, es: seq<Event>, t: State)
    decreases |es|
  {
    if es == [] then s == t else Enabled(s, es[0]) && Run(Next(s, es[0]), es[1..], t)
  }

  ghost predicate Reachable(unique: bool, s: State) { exists es :: Run(Init(unique), es, s) }

  lemma {:induction false} RunConcat(s: State, es: seq<Event>, m: State, fs: seq<Event>, t: State)
    requires Run(s, es, m) && Run(m, fs, t)
    ensures Run(s, es + fs, t)
    decreases |es|
  {
    hide Next, Enabled;
    if es == [] {
      assert es + fs == fs;
    } else {
      RunConcat(Next(s, es[0]), es[1..], m, fs, t);
      assert (es + fs)[0] == es[0] && (es + fs)[1..] == es[1..] + fs;
    }
  }

  lemma ReachableNext(unique: bool, s: State, e: Event)
    requires Reachable(unique, s) && Enabled(s, e)
    ensures Reachable(unique, Next(s, e))
  {
    hide Next, Enabled;
    var es :| Run(Init(unique), es, s);
    assert Run(s, [e], Next(s, e));
    RunConcat(Init(unique), es, s, [e], Next(s, e));
  }

  // ---- The overall status and the completion date

  predicate Agrees(s: State) { s.overall == ResolveOverall(s.manual, s.ai) }

  predicate Dated(s: State) { s.completedAt.Some? <==> s.overall == OverallCompleted }

  /** The law that survives: under every interleaving a completion date is there exactly when the overall
      status is completed. */
  lemma {:induction false} DatesSurvive(s: State, es: seq<Event>, t: State)
    requires Dated(s) && Run(s, es, t)
    ensures Dated(t)
    decreases |es|
  {
    if es != [] {
      DatesSurvive(Next(s, es[0]), es[1..], t);
    }
  }

  /** How far a process's reading may be out of date without harm, by what it is about to write. */
  predicate Harmless(s: State, w: Pending)
    requires CanWrite(s, w)
  {
    match w
    case AiWrite(manual, outcome) =>
      outcome == AiCompleted ==> (manual == ManualSubmitted <==> s.manual == ManualSubmitted)
    case ReviewWrite(ai, target, _, _) =>
      && (ai == AiFailed <==> s.ai == AiFailed)
      && (target == ManualSubmitted ==> (ai == AiCompleted <==> s.ai == AiCompleted))
      && (target == ManualPending ==> (ai == AiPending <==> s.ai == AiPending))
  }

  /** The stronger law, that the overall status is the one resolved from the other two, holds after a
      write if and only if what the writer read was harmlessly old. */
  lemma AgreesIffHarmless(s: State, p: Proc)
    requires Enabled(s, Write(p))
    ensures Agrees(Next(s, Write(p))) <==> Harmless(s, s.pending[p])
  {
    var w := s.pending[p];
    match w {
      case AiWrite(manual, outcome) =>
        match outcome {
          case AiProcessing =>
          case AiCompleted =>
          case AiFailed =>
        }
      case ReviewWrite(ai, target, _, _) =>
        match target {
          case ManualPending =>
          case ManualInProgress =>
          case ManualSubmitted =>
        }
    }
  }

  predicate AlwaysAgrees(s: State, es: seq<Event>)
    decreases |es|
  {
    Agrees(s) && (es == [] || (Enabled(s, es[0]) && AlwaysAgrees(Next(s, es[0]), es[1..])))
  }

  /** Every write in the run is harmless. */
  predicate Careful(s: State, es: seq<Event>)
    decreases |es|
  {
    es == [] ||
    (Enabled(s, es[0]) && (es[0].Write? ==> Harmless(s, s.pending[es[0].p])) && Careful(Next(s, es[0]), es[1..]))
  }

  lemma StepAgreesIff(s: State, e: Event)
    requires Agrees(s) && Enabled(s, e)
    ensures Agrees(Next(s, e)) <==> (e.Write? ==> Harmless(s, s.pending[e.p]))
  {
    if e.Write? {
      AgreesIffHarmless(s, e.p);
    }
  }

  /** So the stronger law holds throughout a run if and only if every write in it is harmless. */
  lemma {:induction false} AgreesThroughoutIff(s: State, es: seq<Event>, t: State)
    requires Agrees(s) && Run(s, es, t)
    ensures AlwaysAgrees(s, es) <==> Careful(s, es)
    decreases |es|
  {
    if es != [] {
      StepAgreesIff(s, es[0]);
      hide Agrees, Harmless, Next, Enabled;
      if Agrees(Next(s, es[0])) {
        AgreesThroughoutIff(Next(s, es[0]), es[1..], t);
      }
    }
  }

  predicate Stuck(s: State) {
    s.manual == ManualSubmitted && s.ai == AiCompleted && s.overall == OverallInProgress
  }

  const SCORER: ScorerId := 7

  /** A video that is assigned and whose evaluation is running. */
  function Evaluating(unique: bool): State {
    State(5, ManualPending, AiProcessing, OverallInProgress, None, Some(SCORER), 0, unique, map[])
  }

  lemma AssignedIsReached(unique: bool) returns (t: State)
    ensures Reachable(unique, t) && t == Init(unique).(now := 3, scorer := Some(SCORER))
  {
    var s0 := Init(unique);
    assert Run(s0, [], s0);
    ReachableNext(unique, s0, Look(0, ManualPending, SCORER));
    var s1 := Next(s0, Look(0, ManualPending, SCORER));
    ReachableNext(unique, s1, LookAgain(0));
    var s2 := Next(s1, LookAgain(0));
    ReachableNext(unique, s2, Write(0));
    t := Next(s2, Write(0));
    assert t.pending == map[];
  }

  lemma EvaluatingIsReached(unique: bool)
    ensures Reachable(unique, Evaluating(unique))
  {
    var s0 := AssignedIsReached(unique);
    ReachableNext(unique, s0, ReadForAi(0, AiProcessing));
    var s1 := Next(s0, ReadForAi(0, AiProcessing));
    ReachableNext(unique, s1, Write(0));
    assert Next(s1, Write(0)) == Evaluating(unique);
  }

  /** A draft or a submission makes its reads without being disturbed. */
  lemma Prepares(unique: bool, s: State, p: Proc, target: ManualStatus) returns (t: State)
    requires Reachable(unique, s) && p !in s.pending && target != ManualPending
    requires s.manual != ManualSubmitted && s.scorer == Some(SCORER)
    ensures Reachable(unique, t)
    ensures t == s.(now := s.now + 3, pending := s.pending[p := ReviewWrite(s.ai, target, SCORER, s.rows == 0)])
  {
    ReachableNext(unique, s, Look(p, target, SCORER));
    var s1 := Next(s, Look(p, target, SCORER));
    ReachableNext(unique, s1, LookAgain(p));
    var s2 := Next(s1, LookAgain(p));
    ReachableNext(unique, s2, Find(p));
    t := Next(s2, Find(p));
    assert t.pending == s.pending[p := t.pending[p]];
  }

  /** Two overlapping operations are enough to break it: a completing evaluation and a submission, each
      reading before the other writes, leave a video that is finished on both sides in progress. */
  lemma OverlapBreaksTheLaw(unique: bool)
    ensures exists s :: Reachable(unique, s) && Stuck(s) && s.pending == map[]
  {
    EvaluatingIsReached(unique);
    var s0 := Prepares(unique, Evaluating(unique), 1, ManualSubmitted);
    ReachableNext(unique, s0, ReadForAi(0, AiCompleted));
    var s1 := Next(s0, ReadForAi(0, AiCompleted));
    ReachableNext(unique, s1, Write(0));
    var s2 := Next(s1, Write(0));
    assert s2.pending == s0.pending;
    ReachableNext(unique, s2, Write(1));
    var s3 := Next(s2, Write(1));
    assert s3.pending == map[] && Stuck(s3);
  }

  // ---- What an operation under way still does by itself

  /** The remaining steps of a review operation that has passed its guard. */
  function Rest(p: Proc, w: Pending): seq<Event>
    requires !w.AiWrite?
  {
    match w
    case Looked(_, _, _) => [LookAgain(p), Find(p), Write(p)]
    case Read(_, _, _) => [Find(p), Write(p)]
    case ReviewWrite(_, _, _, _) => [Write(p)]
  }

  /** What it then writes, if nothing intervenes. */
  function Final(s: State, w: Pending): (f: Pending)
    requires !w.AiWrite?
    ensures f.ReviewWrite?
  {
    match w
    case Looked(_, target, who) => ReviewWrite(s.ai, target, who, s.rows == 0)
    case Read(ai, target, who) => ReviewWrite(ai, target, who, s.rows == 0)
    case ReviewWrite(_, _, _, _) => w
  }

  /** It has passed its guard, will find its scorer's assignment, and the database will not refuse it. */
  predicate Committed(s: State, w: Pending) {
    && !w.AiWrite? && !Blocked(s, w)
    && (w.Looked? ==> w.target != ManualPending)
    && (w.Looked? || w.Read? ==> s.scorer == Some(w.who))
  }

  lemma RestRuns(s: State, p: Proc) returns (t: State)
    requires p in s.pending && Committed(s, s.pending[p])
    ensures Run(s, Rest(p, s.pending[p]), t)
    ensures NoAiWrite(s, Rest(p, s.pending[p]))
    ensures !Blocked(s, Final(s, s.pending[p]))
    ensures
      var f := Written(s, Final(s, s.pending[p]));
      t.manual == f.manual && t.ai == f.ai && t.overall == f.overall && t.rows == f.rows
  {
    match s.pending[p] {
      case ReviewWrite(_, _, _, _) =>
        t := WriteRuns(s, p);
      case Read(_, _, _) =>
        t := FindRuns(s, p);
      case Looked(_, _, _) =>
        var m := Next(s, LookAgain(p));
        t := FindRuns(m, p);
        assert Rest(p, s.pending[p])[1..] == [Find(p), Write(p)];
    }
  }

  lemma WriteRuns(s: State, p: Proc) returns (t: State)
    requires p in s.pending && s.pending[p].ReviewWrite? && !Blocked(s, s.pending[p])
    ensures Run(s, [Write(p)], t) && NoAiWrite(s, [Write(p)])
    ensures t == Next(s, Write(p))
  {
    t := Next(s, Write(p));
    assert [Write(p)][1..] == [];
    assert Run(t, [], t) && NoAiWrite(t, []);
  }

  lemma FindRuns(s: State, p: Proc) returns (t: State)
    requires p in s.pending && s.pending[p].Read? && s.scorer == Some(s.pending[p].who)
    ensures Run(s, [Find(p), Write(p)], t) && NoAiWrite(s, [Find(p), Write(p)])
    ensures t == Next(Next(s, Find(p)), Write(p))
  {
    t := WriteRuns(Next(s, Find(p)), p);
    assert [Find(p), Write(p)][1..] == [Write(p)];
  }

  // ---- A finished video that is not completed

  /** An operation under way leaves such a video as it is: no review that has passed its guard, except a submission
      that read the AI status before the evaluation completed or failed. */
  predicate StaysPut(s: State, w: Pending) {
    Committed(s, w) ==>
      w.target == ManualSubmitted && !w.Looked? && w.ai != AiCompleted && w.ai != AiFailed
  }

  predicate StuckOn(s: State) { Stuck(s) && forall p :: p in s.pending ==> StaysPut(s, s.pending[p]) }

  /** No write in the run is an AI operation's. */
  predicate NoAiWrite(s: State, es: seq<Event>)
    decreases |es|
  {
    es == [] ||
    (Enabled(s, es[0]) && (es[0].Write? ==> s.pending[es[0].p].ReviewWrite?) && NoAiWrite(Next(s, es[0]), es[1..]))
  }

  lemma StuckStep(s: State, e: Event)
    requires StuckOn(s) && Enabled(s, e) && (e.Write? ==> s.pending[e.p].ReviewWrite?)
    ensures StuckOn(Next(s, e))
  {
  }

  lemma {:induction false} StuckUntilAiWrites(s: State, es: seq<Event>, t: State)
    requires Run(s, es, t) && StuckOn(s) && NoAiWrite(s, es)
    ensures Stuck(t)
    decreases |es|
  {
    if es != [] {
      StuckStep(s, es[0]);
      hide StuckOn, Next, Enabled;
      StuckUntilAiWrites(Next(s, es[0]), es[1..], t);
    }
  }

  ghost predicate ReviewsRepair(s: State) { exists es, t :: Run(s, es, t) && NoAiWrite(s, es) && !Stuck(t) }

  /** Nothing on the review side repairs it, unless it is under way already: without a write of an AI operation such
      a video is left by some run if and only if a review has passed its guard and will write anything but a
      submission over an AI status read before the evaluation ended. */
  lemma StuckIsLeftIff(s: State)
    requires Stuck(s)
    ensures ReviewsRepair(s) <==> exists p :: p in s.pending && !StaysPut(s, s.pending[p])
  {
    if p :| p in s.pending && !StaysPut(s, s.pending[p]) {
      var t := RestRuns(s, p);
      assert !Stuck(t);
    } else {
      forall es, t | Run(s, es, t) && NoAiWrite(s, es) ensures Stuck(t) {
        StuckUntilAiWrites(s, es, t);
      }
    }
  }

  /** An AI operation that reads now does repair it, and completes the video when it completes. */
  lemma AiWriteRepairs(s: State, p: Proc, outcome: AiOutcome)
    requires Stuck(s) && p !in s.pending
    ensures
      var t := Next(Next(s, ReadForAi(p, outcome)), Write(p));
      Agrees(t) && (outcome == AiCompleted ==> t.overall == OverallCompleted)
  {
    AgreesIffHarmless(Next(s, ReadForAi(p, outcome)), p);
  }

  // ---- A submission that is left again

  /** A review that has passed its guard and will not leave the video submitted. */
  predicate Unsubmits(s: State, w: Pending) { Committed(s, w) && w.target != ManualSubmitted }

  predicate SubmittedOn(s: State) {
    s.manual == ManualSubmitted && forall p :: p in s.pending ==> !Unsubmits(s, s.pending[p])
  }

  lemma SubmittedStep(s: State, e: Event)
    requires SubmittedOn(s) && Enabled(s, e)
    ensures SubmittedOn(Next(s, e))
  {
  }

  lemma {:induction false} SubmittedThrough(s: State, es: seq<Event>, t: State)
    requires SubmittedOn(s) && Run(s, es, t)
    ensures t.manual == ManualSubmitted
    decreases |es|
  {
    if es != [] {
      SubmittedStep(s, es[0]);
      hide SubmittedOn, Next, Enabled;
      SubmittedThrough(Next(s, es[0]), es[1..], t);
    }
  }

  ghost predicate CanBeLeft(s: State) { exists es, t :: Run(s, es, t) && t.manual != ManualSubmitted }

  /** Submitted is left by some run if and only if a draft or an assignment that passed its guard before the
      submission is still under way: the write does not look at the status again. */
  lemma SubmittedIsLeftIff(s: State)
    requires s.manual == ManualSubmitted
    ensures CanBeLeft(s) <==> exists p :: p in s.pending && Unsubmits(s, s.pending[p])
  {
    if p :| p in s.pending && Unsubmits(s, s.pending[p]) {
      var t := RestRuns(s, p);
    } else {
      forall es, t | Run(s, es, t) ensures t.manual == ManualSubmitted {
        SubmittedThrough(s, es, t);
      }
    }
  }

  /** A draft that passed its guard before a submission may undo it afterwards, although the video is completed. */
  lemma DraftUndoesSubmission(unique: bool)
    ensures exists s :: Reachable(unique, s) && s.overall == OverallCompleted && CanBeLeft(s)
  {
    EvaluatingIsReached(unique);
    var s0 := Evaluating(unique);
    ReachableNext(unique, s0, ReadForAi(0, AiCompleted));
    var s1 := Next(s0, ReadForAi(0, AiCompleted));
    ReachableNext(unique, s1, Write(0));
    var s2 := Next(s1, Write(0));
    ReachableNext(unique, s2, Look(2, ManualInProgress, SCORER));
    var s3 := Next(s2, Look(2, ManualInProgress, SCORER));
    var s4 := Prepares(unique, s3, 1, ManualSubmitted);
    ReachableNext(unique, s4, Write(1));
    var t := Next(s4, Write(1));
    assert t.pending[2] == Looked(AiCompleted, ManualInProgress, SCORER);
    assert Unsubmits(t, t.pending[2]);
    SubmittedIsLeftIff(t);
  }

  // ---- Evaluation rows

  /** A draft or a submission that has found a row. */
  predicate HasFound(w: Pending) { w.ReviewWrite? && w.target != ManualPending && !w.inserts }

  predicate Begun(s: State) {
    && (s.manual != ManualPending ==> s.rows > 0) && (s.unique ==> s.rows <= 1)
    && (forall p :: p in s.pending && HasFound(s.pending[p]) ==> s.rows > 0)
  }

  lemma BegunStep(s: State, e: Event)
    requires Begun(s) && Enabled(s, e)
    ensures Begun(Next(s, e)) && Next(s, e).unique == s.unique
  {
  }

  lemma {:induction false} BegunThrough(s: State, es: seq<Event>, t: State)
    requires Begun(s) && Run(s, es, t)
    ensures Begun(t) && t.unique == s.unique
    decreases |es|
  {
    if es != [] {
      BegunStep(s, es[0]);
      hide Begun, Next, Enabled;
      BegunThrough(Next(s, es[0]), es[1..], t);
    }
  }

  /** Under every interleaving a review that has begun has an evaluation row, and with the database's constraint
      exactly one. */
  lemma BegunHasARow(unique: bool, s: State)
    requires Reachable(unique, s)
    ensures s.manual != ManualPending ==> s.rows > 0
    ensures unique ==> s.rows <= 1
  {
    var es :| Run(Init(unique), es, s);
    BegunThrough(Init(unique), es, s);
  }

  ghost predicate CanAddRows(s: State) { exists es, t :: Run(s, es, t) && t.rows > s.rows }

  /** It has looked for a row, found none, and will insert one. */
  predicate WillInsert(w: Pending) { w.ReviewWrite? && w.inserts }

  lemma {:induction false} RowsThrough(s: State, es: seq<Event>, t: State)
    requires Run(s, es, t) && s.rows > 0
    requires s.unique || forall p :: p in s.pending ==> !WillInsert(s.pending[p])
    ensures t.rows == s.rows
    decreases |es|
  {
    if es != [] {
      RowsThrough(Next(s, es[0]), es[1..], t);
    }
  }

  /** Without the constraint a review with a row may be given another if and only if an operation under way looked
      for one before the row was there. */
  lemma RowsAreAddedIff(s: State)
    requires s.rows > 0
    ensures CanAddRows(s) <==> !s.unique && exists p :: p in s.pending && WillInsert(s.pending[p])
  {
    if !s.unique && exists p :: p in s.pending && WillInsert(s.pending[p]) {
      var p :| p in s.pending && WillInsert(s.pending[p]);
      var t := RestRuns(s, p);
    } else {
      forall es, t | Run(s, es, t) ensures t.rows == s.rows {
        RowsThrough(s, es, t);
      }
    }
  }

  predicate AlwaysOneRow(s: State, es: seq<Event>)
    decreases |es|
  {
    s.rows <= 1 && (es == [] || (Enabled(s, es[0]) && AlwaysOneRow(Next(s, es[0]), es[1..])))
  }

  /** Every insert in the run finds the review still without a row. */
  predicate InsertsApart(s: State, es: seq<Event>)
    decreases |es|
  {
    es == [] || (
      && Enabled(s, es[0]) && (es[0].Write? && WillInsert(s.pending[es[0].p]) ==> s.rows == 0)
      && InsertsApart(Next(s, es[0]), es[1..]))
  }

  /** A review never has two rows throughout a run if and only if every insert finds it still without one. */
  lemma {:induction false} OneRowThroughoutIff(s: State, es: seq<Event>, t: State)
    requires s.rows <= 1 && Run(s, es, t)
    ensures AlwaysOneRow(s, es) <==> InsertsApart(s, es)
    decreases |es|
  {
    if es != [] {
      var m := Next(s, es[0]);
      assert m.rows <= 1 <==> (es[0].Write? && WillInsert(s.pending[es[0].p]) ==> s.rows == 0);
      hide Next, Enabled;
      if m.rows <= 1 {
        OneRowThroughoutIff(m, es[1..], t);
      }
    }
  }

  /** Two drafts of one review that overlap from the start are enough: it ends with two rows. */
  lemma TwoFirstDrafts()
    ensures exists s :: Reachable(false, s) && s.manual == ManualInProgress && s.rows == 2 && s.pending == map[]
  {
    var s0 := AssignedIsReached(false);
    var s1 := Prepares(false, s0, 1, ManualInProgress);
    var s2 := Prepares(false, s1, 2, ManualInProgress);
    ReachableNext(false, s2, Write(1));
    var s3 := Next(s2, Write(1));
    assert s3.pending[2] == ReviewWrite(AiPending, ManualInProgress, SCORER, true);
    ReachableNext(false, s3, Write(2));
    var s4 := Next(s3, Write(2));
    assert s4.pending == map[];
  }
}

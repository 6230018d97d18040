/**
 Whether the cached counters of a task and its project count one of its videos rightly, when operations on the video
 and recounts overlap. A recount is one transaction of four statements, none of which sees what another transaction
 has not committed: it counts the task's videos, updates the task, counts the project's videos and updates the
 project. Updating the task locks its row until the transaction ends. Recounts of the same task that follow
 operations on other videos, and recounts of other tasks of the project, may come at any time.
 */
module StaleCounters {
  import opened Wrappers
  import opened EvaluationStatus
  import V = StaleStatus

  type Proc = V.Proc

  /** How far a recount is, and what it has seen of the video. */
  datatype Recount =
    | Due
    | Counted(task: bool)
    | Locked(task: bool)
    | CountedBoth(task: bool, project: bool)

  /** `taskCounts`, `projectCounts`: the counters count the video as completed. `others`: recounts of other tasks of the
      project that have counted, with what they saw. */
  datatype State = State(
    video: V.State, taskCounts: bool, projectCounts: bool, recounts: map<Proc, Recount>, others: map<Proc, bool>)

  datatype Event =
    | Op(e: V.Event)
    | Join(p: Proc)
    | Count(p: Proc)
    | UpdateTask(p: Proc)
    | CountProject(p: Proc)
    | Commit(p: Proc)
    | GiveUp(p: Proc)
    | OtherCount(p: Proc)
    | OtherCommit(p: Proc)
    | OtherGiveUp(p: Proc)

  function Init(unique: bool): State { State(V.Init(unique), false, false, map[], map[]) }

  predicate Done(s: State) { s.video.overall == OverallCompleted }

  predicate Idle(s: State, p: Proc) { p !in s.recounts && p !in s.others }

  /** Holds the lock on the task's row. */
  predicate Holds(r: Recount) { r.Locked? || r.CountedBoth? }

  predicate Enabled(s: State, e: Event) {
    match e
    case Op(e) => V.Enabled(s.video, e) && Idle(s, e.p)
    case Join(p) => Idle(s, p) && p !in s.video.pending
    case Count(p) => p in s.recounts && s.recounts[p].Due?
    case UpdateTask(p) =>
      p in s.recounts && s.recounts[p].Counted? && forall q :: q in s.recounts ==> !Holds(s.recounts[q])
    case CountProject(p) => p in s.recounts && s.recounts[p].Locked?
    case Commit(p) => p in s.recounts && s.recounts[p].CountedBoth?
    case GiveUp(p) => p in s.recounts
    case OtherCount(p) => Idle(s, p) && p !in s.video.pending
    case OtherCommit(p) => p in s.others
    case OtherGiveUp(p) => p in s.others
  }

  /** Assigning and saving a draft are not followed by a recount. */
  predicate Recounts(w: V.Pending) { w.AiWrite? || w.target == ManualSubmitted }

  predicate IsDue(s: State, e: V.Event)
    requires V.Enabled(s.video, e)
  {
    e.Write? && Recounts(s.video.pending[e.p])
  }

  function Next(s: State, e: Event): State
    requires Enabled(s, e)
  {
    match e
    case Op(e) =>
      s.(video := V.Next(s.video, e), recounts := if IsDue(s, e) then s.recounts[e.p := Due] else s.recounts)
    case Join(p) => s.(recounts := s.recounts[p := Due])
    case Count(p) => s.(recounts := s.recounts[p := Counted(Done(s))])
    case UpdateTask(p) => s.(recounts := s.recounts[p := Locked(s.recounts[p].task)])
    case CountProject(p) => s.(recounts := s.recounts[p := CountedBoth(s.recounts[p].task, Done(s))])
    case Commit(p) =>
      s.(taskCounts := s.recounts[p].task, projectCounts := s.recounts[p].project, recounts := s.recounts - {p})
    case GiveUp(p) => s.(recounts := s.recounts - {p})
    case OtherCount(p) => s.(others := s.others[p := Done(s)])
    case OtherCommit(p) => s.(projectCounts := s.others[p], others := s.others - {p})
    case OtherGiveUp(p) => s.(others := s.others - {p})
  }

  predicate Run(s: State, es: seq<Event>, t: State)
    decreases |es|
  {
    if es == [] then s == t else Enabled(s, es[0]) && Run(Next(s, es[0]), es[1..], t)
  }

  ghost predicate Reachable(unique: bool, s: State) { exists es :: Run(Init(unique), es, s) }

  lemma {:induction false} RunConcat(s: State, es: seq<Event>, m: State, fs: seq<Event>, t: State)
    requires Run(s, es, m) && Run(m, fs, t)
    ensures Run(s, es + fs, t)
    decreases |es|
  {
    hide Next, Enabled;
    if es == [] {
      assert es + fs == fs;
    } else {
      RunConcat(Next(s, es[0]), es[1..], m, fs, t);
      assert (es + fs)[0] == es[0] && (es + fs)[1..] == es[1..] + fs;
    }
  }

  lemma ReachableNext(unique: bool, s: State, e: Event)
    requires Reachable(unique, s) && Enabled(s, e)
    ensures Reachable(unique, Next(s, e))
  {
    hide Next, Enabled;
    var es :| Run(Init(unique), es, s);
    assert Run(s, [e], Next(s, e));
    RunConcat(Init(unique), es, s, [e], Next(s, e));
  }

  /** Only one recount at a time holds the lock. */
  ghost predicate OneHolder(s: State) {
    forall p, q :: p in s.recounts && q in s.recounts && Holds(s.recounts[p]) && Holds(s.recounts[q]) ==> p == q
  }

  lemma HolderStep(s: State, e: Event)
    requires OneHolder(s) && Enabled(s, e)
    ensures OneHolder(Next(s, e))
  {
    hide V.Next;
  }

  lemma {:induction false} HolderThrough(s: State, es: seq<Event>, t: State)
    requires OneHolder(s) && Run(s, es, t)
    ensures OneHolder(t)
    decreases |es|
  {
    if es != [] {
      HolderStep(s, es[0]);
      hide OneHolder, Next, Enabled;
      HolderThrough(Next(s, es[0]), es[1..], t);
    }
  }

  /** Whether an event of the video changes that it is completed. */
  lemma OnlyWritesComplete(s: State, e: V.Event)
    requires Enabled(s, Op(e))
    ensures !e.Write? ==> Done(Next(s, Op(e))) == Done(s)
    ensures e.Write? && !IsDue(s, e) ==> !Done(Next(s, Op(e)))
  {
  }

  // ---- The task's counter, as a run goes

  /** What a recount will store in the task's counter is right, as things stand. */
  predicate TaskRight(s: State, r: Recount) { r.Due? || r.task == Done(s) }

  /** The task's counter is right, or a recount that will count, or has counted rightly, is still to store. */
  ghost predicate Promised(s: State) {
    s.taskCounts == Done(s) || exists p :: p in s.recounts && TaskRight(s, s.recounts[p])
  }

  ghost predicate RightElsewhere(s: State, p: Proc) {
    exists q :: q in s.recounts && q != p && TaskRight(s, s.recounts[q])
  }

  /** Whether an event keeps the promise. A store must be of a value that is still right, or another recount that
      will make it right must be to come; one may not be given up when it is needed and the last; and a draft or an
      assignment, which no recount follows, may take the completion away only if a recount is to come that will see
      that, or has seen it before. */
  ghost predicate Accounted(s: State, e: Event)
    requires Enabled(s, e)
  {
    match e
    case Op(e) =>
      e.Write? && !IsDue(s, e) && Done(s) ==>
        !s.taskCounts || exists q :: q in s.recounts && (s.recounts[q].Due? || !s.recounts[q].task)
    case Commit(p) => s.recounts[p].task == Done(s) || RightElsewhere(s, p)
    case GiveUp(p) => s.taskCounts == Done(s) || RightElsewhere(s, p)
    case _ => true
  }

  lemma PromisedIff(s: State, e: Event)
    requires Promised(s) && Enabled(s, e)
    ensures Promised(Next(s, e)) <==> Accounted(s, e)
  {
    var t := Next(s, e);
    match e {
      case Op(v) => OpPromisedIff(s, v);
      case Join(p) => assert p in t.recounts && TaskRight(t, t.recounts[p]);
      case Count(p) => assert p in t.recounts && TaskRight(t, t.recounts[p]);
      case UpdateTask(p) => SameRightness(s, t);
      case CountProject(p) => SameRightness(s, t);
      case Commit(p) => RemovedRightness(s, t, p);
      case GiveUp(p) => RemovedRightness(s, t, p);
      case _ => SameRightness(s, t);
    }
  }

  lemma OpPromisedIff(s: State, e: V.Event)
    requires Promised(s) && Enabled(s, Op(e))
    ensures Promised(Next(s, Op(e))) <==> Accounted(s, Op(e))
  {
    OnlyWritesComplete(s, e);
    hide V.Next, V.Enabled;
    var t := Next(s, Op(e));
    if IsDue(s, e) {
      assert e.p in t.recounts && TaskRight(t, t.recounts[e.p]);
    } else if Done(t) == Done(s) {
      SameRightness(s, t);
    } else {
      forall q | q in s.recounts ensures TaskRight(t, t.recounts[q]) <==> s.recounts[q].Due? || !s.recounts[q].task {}
    }
  }

  lemma SameRightness(s: State, t: State)
    requires Done(t) == Done(s) && t.taskCounts == s.taskCounts && t.recounts.Keys == s.recounts.Keys
    requires forall q :: q in s.recounts ==> (TaskRight(t, t.recounts[q]) <==> TaskRight(s, s.recounts[q]))
    ensures Promised(t) <==> Promised(s)
  {
    if q :| q in s.recounts && TaskRight(s, s.recounts[q]) {
      assert TaskRight(t, t.recounts[q]);
    }
    if q :| q in t.recounts && TaskRight(t, t.recounts[q]) {
      assert TaskRight(s, s.recounts[q]);
    }
  }

  lemma RemovedRightness(s: State, t: State, p: Proc)
    requires Done(t) == Done(s) && t.recounts == s.recounts - {p}
    ensures Promised(t) <==> t.taskCounts == Done(s) || RightElsewhere(s, p)
  {
    if q :| q in s.recounts && q != p && TaskRight(s, s.recounts[q]) {
      assert q in t.recounts && TaskRight(t, t.recounts[q]);
    }
  }

  ghost predicate AlwaysPromised(s: State, es: seq<Event>)
    decreases |es|
  {
    Promised(s) && (es == [] || (Enabled(s, es[0]) && AlwaysPromised(Next(s, es[0]), es[1..])))
  }

  ghost predicate Accountable(s: State, es: seq<Event>)
    decreases |es|
  {
    es == [] || (Enabled(s, es[0]) && Accounted(s, es[0]) && Accountable(Next(s, es[0]), es[1..]))
  }

  /** Throughout a run the task's counter is right, or a recount that makes it right is to come, if and only if every
      event is accounted for; so it is right whenever no recount is under way. */
  lemma {:induction false} CountersSurviveIff(s: State, es: seq<Event>, t: State)
    requires Promised(s) && Run(s, es, t)
    ensures AlwaysPromised(s, es) <==> Accountable(s, es)
    ensures Accountable(s, es) && t.recounts == map[] ==> t.taskCounts == Done(t)
    decreases |es|
  {
    if es != [] {
      PromisedIff(s, es[0]);
      hide Promised, Accounted, Next, Enabled;
      if Promised(Next(s, es[0])) {
        CountersSurviveIff(Next(s, es[0]), es[1..], t);
      }
    }
  }

  // ---- The task's counter, whatever order the recounts end in

  /** A recount that has not got the lock yet. */
  predicate Waits(s: State, p: Proc) { p in s.recounts && !Holds(s.recounts[p]) }

  /** Whichever recount of the task stores last stores what is right: one of those that wait, if there are any,
      otherwise the one that holds the lock, otherwise what is stored already. */
  ghost predicate Sure(s: State) {
    && (forall p :: Waits(s, p) ==> TaskRight(s, s.recounts[p]))
    && ((exists p :: Waits(s, p)) || forall p :: p in s.recounts ==> TaskRight(s, s.recounts[p]))
    && (s.recounts == map[] ==> s.taskCounts == Done(s))
  }

  /** Whether an event keeps that. A write that changes whether the video is completed must not meet a recount
      between its count and its update of the task; one that no recount follows must in addition meet a recount
      that is still to count; and a recount may be given up only if another waits or what is left is right. */
  ghost predicate Safe(s: State, e: Event)
    requires Enabled(s, e)
  {
    match e
    case Op(v) =>
      Done(Next(s, e)) != Done(s) ==>
        && (forall q :: q in s.recounts ==> !s.recounts[q].Counted?)
        && (IsDue(s, v) || exists q :: q in s.recounts && s.recounts[q].Due?)
    case GiveUp(p) =>
      || (exists q :: q != p && Waits(s, q))
      || (&& (forall q :: q in s.recounts && q != p ==> TaskRight(s, s.recounts[q]))
          && (s.recounts.Keys == {p} ==> s.taskCounts == Done(s)))
    case _ => true
  }

  lemma SureStepIff(s: State, e: Event)
    requires Sure(s) && OneHolder(s) && Enabled(s, e)
    ensures Sure(Next(s, e)) <==> Safe(s, e)
  {
    hide Sure, OneHolder, Enabled, Next;
    match e {
      case Op(v) => OpSureIff(s, v);
      case GiveUp(p) => GiveUpSureIff(s, p);
      case Join(p) => StartKeepsSure(s, e);
      case Count(p) => StartKeepsSure(s, e);
      case UpdateTask(p) => UpdateKeepsSure(s, p);
      case CountProject(p) => ProjectCountKeepsSure(s, p);
      case Commit(p) => CommitKeepsSure(s, p);
      case _ => OthersKeepSure(s, e);
    }
  }

  lemma StartKeepsSure(s: State, e: Event)
    requires Sure(s) && Enabled(s, e) && (e.Join? || e.Count?)
    ensures Sure(Next(s, e))
  {
    assert Waits(Next(s, e), e.p);
  }

  lemma OthersKeepSure(s: State, e: Event)
    requires Sure(s) && Enabled(s, e) && (e.OtherCount? || e.OtherCommit? || e.OtherGiveUp?)
    ensures Sure(Next(s, e))
  {
    assert forall q :: Waits(Next(s, e), q) <==> Waits(s, q);
  }

  lemma OpSureIff(s: State, e: V.Event)
    requires Sure(s) && Enabled(s, Op(e))
    ensures Sure(Next(s, Op(e))) <==> Safe(s, Op(e))
  {
    OnlyWritesComplete(s, e);
    hide V.Next, V.Enabled;
    var t := Next(s, Op(e));
    assert forall q :: q != e.p ==> (Waits(t, q) <==> Waits(s, q));
    if IsDue(s, e) {
      assert Waits(t, e.p);
      if q :| q in s.recounts && s.recounts[q].Counted? {
        assert Waits(s, q) && Waits(t, q) && t.recounts[q] == s.recounts[q];
      }
    } else {
      assert t.recounts == s.recounts;
      if q :| q in s.recounts && s.recounts[q].Counted? {
        assert Waits(s, q) && Waits(t, q);
      }
      if q :| q in s.recounts && s.recounts[q].Due? {
        assert Waits(s, q) && Waits(t, q);
      }
      if q :| q in s.recounts {
        assert Waits(s, q) || Holds(s.recounts[q]);
      }
    }
  }

  lemma GiveUpSureIff(s: State, p: Proc)
    requires Sure(s) && Enabled(s, GiveUp(p))
    ensures Sure(Next(s, GiveUp(p))) <==> Safe(s, GiveUp(p))
  {
    var t := Next(s, GiveUp(p));
    assert forall q :: Waits(t, q) <==> q != p && Waits(s, q);
    if q :| q in s.recounts && q != p {
      assert q in t.recounts && s.recounts.Keys != {p};
    } else {
      assert t.recounts == map[] && s.recounts.Keys == {p};
    }
  }

  lemma UpdateKeepsSure(s: State, p: Proc)
    requires Sure(s) && Enabled(s, UpdateTask(p))
    ensures Sure(Next(s, UpdateTask(p)))
  {
    var t := Next(s, UpdateTask(p));
    assert Waits(s, p);
    assert forall q :: q != p ==> (Waits(t, q) <==> Waits(s, q));
    forall q | q in t.recounts && !(exists r :: Waits(t, r)) ensures TaskRight(t, t.recounts[q]) {
      assert !Waits(t, q) && (q != p ==> Waits(s, q));
    }
    assert p in t.recounts;
  }

  lemma ProjectCountKeepsSure(s: State, p: Proc)
    requires Sure(s) && Enabled(s, CountProject(p))
    ensures Sure(Next(s, CountProject(p)))
  {
    var t := Next(s, CountProject(p));
    assert forall q :: Waits(t, q) <==> Waits(s, q);
    assert forall q :: q in s.recounts ==> (TaskRight(t, t.recounts[q]) <==> TaskRight(s, s.recounts[q]));
    assert p in t.recounts;
  }

  lemma CommitKeepsSure(s: State, p: Proc)
    requires Sure(s) && OneHolder(s) && Enabled(s, Commit(p))
    ensures Sure(Next(s, Commit(p)))
  {
    var t := Next(s, Commit(p));
    assert forall q :: Waits(t, q) <==> Waits(s, q);
    forall q | q in t.recounts ensures Waits(t, q) {
      assert q != p && Holds(s.recounts[p]);
    }
  }

  ghost predicate AlwaysSure(s: State, es: seq<Event>)
    decreases |es|
  {
    Sure(s) && (es == [] || (Enabled(s, es[0]) && AlwaysSure(Next(s, es[0]), es[1..])))
  }

  ghost predicate SafeRun(s: State, es: seq<Event>)
    decreases |es|
  {
    es == [] || (Enabled(s, es[0]) && Safe(s, es[0]) && SafeRun(Next(s, es[0]), es[1..]))
  }

  /** Throughout a run the recounts under way will make the task's counter right in whatever order they end, if and
      only if every event is safe. */
  lemma {:induction false} SureThroughoutIff(s: State, es: seq<Event>, t: State)
    requires Sure(s) && OneHolder(s) && Run(s, es, t)
    ensures AlwaysSure(s, es) <==> SafeRun(s, es)
    ensures SafeRun(s, es) && t.recounts == map[] ==> t.taskCounts == Done(t)
    decreases |es|
  {
    if es != [] {
      SureStepIff(s, es[0]);
      HolderStep(s, es[0]);
      hide Sure, Safe, OneHolder, Next, Enabled;
      if Sure(Next(s, es[0])) {
        SureThroughoutIff(Next(s, es[0]), es[1..], t);
      }
    }
  }

  // ---- That this is what "sure" means

  /** A statement of a recount that is under way. */
  predicate OfRecount(e: Event) { e.Count? || e.UpdateTask? || e.CountProject? || e.Commit? }

  /** The recounts under way end, and nothing else happens. */
  ghost predicate Settles(s: State, es: seq<Event>, t: State) {
    Run(s, es, t) && t.recounts == map[] && forall i :: 0 <= i < |es| ==> OfRecount(es[i])
  }

  lemma {:induction false} SureSettles(s: State, es: seq<Event>, t: State)
    requires Sure(s) && OneHolder(s) && Settles(s, es, t)
    ensures t.taskCounts == Done(t)
    decreases |es|
  {
    if es != [] {
      assert OfRecount(es[0]);
      SureStepIff(s, es[0]);
      HolderStep(s, es[0]);
      hide Sure, Safe, OneHolder, Next, Enabled;
      assert forall i :: 0 <= i < |es[1..]| ==> es[1..][i] == es[i + 1];
      SureSettles(Next(s, es[0]), es[1..], t);
    }
  }

  /** What is left of a recount. */
  function Rest(p: Proc, r: Recount): seq<Event> {
    match r
    case Due => [Count(p), UpdateTask(p), CountProject(p), Commit(p)]
    case Counted(_) => [UpdateTask(p), CountProject(p), Commit(p)]
    case Locked(_) => [CountProject(p), Commit(p)]
    case CountedBoth(_, _) => [Commit(p)]
  }

  /** A recount under way can end at once, unless another one holds the lock. */
  lemma {:induction false} EndsAlone(s: State, p: Proc) returns (t: State)
    requires p in s.recounts && forall q :: q in s.recounts && q != p ==> !Holds(s.recounts[q])
    ensures Run(s, Rest(p, s.recounts[p]), t)
    ensures t.video == s.video && t.others == s.others && t.recounts == s.recounts - {p}
    ensures t.taskCounts == if s.recounts[p].Due? then Done(s) else s.recounts[p].task
    ensures t.projectCounts == if s.recounts[p].CountedBoth? then s.recounts[p].project else Done(s)
    decreases |Rest(p, s.recounts[p])|
  {
    var e := Rest(p, s.recounts[p])[0];
    var m := Next(s, e);
    if e.Commit? {
      t := m;
      assert Rest(p, s.recounts[p])[1..] == [];
    } else {
      assert Rest(p, s.recounts[p])[1..] == Rest(p, m.recounts[p]);
      t := EndsAlone(m, p);
      assert t.recounts == s.recounts - {p};
    }
  }

  /** Beside a recount that waits there is one that can end at once: the one that holds the lock, or any. */
  lemma SomeOther(s: State, p: Proc) returns (q: Proc)
    requires OneHolder(s) && Waits(s, p) && s.recounts.Keys != {p}
    ensures q in s.recounts && q != p && forall r :: r in s.recounts && r != q ==> !Holds(s.recounts[r])
  {
    if r :| r in s.recounts && Holds(s.recounts[r]) {
      q := r;
    } else {
      var rest := s.recounts.Keys - {p};
      assert rest == {} ==> s.recounts.Keys == {p};
      q :| q in rest;
    }
  }

  /** All recounts but one that waits can end, whichever holds the lock first. */
  lemma {:induction false} OthersEnd(s: State, p: Proc) returns (es: seq<Event>, t: State)
    requires OneHolder(s) && Waits(s, p)
    ensures Run(s, es, t) && forall i :: 0 <= i < |es| ==> OfRecount(es[i])
    ensures t.video == s.video && t.recounts == map[p := s.recounts[p]]
    decreases s.recounts.Keys
  {
    if s.recounts.Keys == {p} {
      es, t := [], s;
    } else {
      hide Run;
      var q := SomeOther(s, p);
      var m := EndsAlone(s, q);
      assert m.recounts.Keys == s.recounts.Keys - {q} && p in m.recounts;
      var rest;
      rest, t := OthersEnd(m, p);
      es := Rest(q, s.recounts[q]) + rest;
      RunConcat(s, Rest(q, s.recounts[q]), m, rest, t);
    }
  }

  /** So the recounts under way are sure to make the task's counter right if and only if they do so in whatever order
      they end. */
  lemma SureIff(s: State)
    requires OneHolder(s)
    ensures Sure(s) <==> forall es, t :: Settles(s, es, t) ==> t.taskCounts == Done(t)
  {
    hide Next, Enabled;
    if Sure(s) {
      forall es, t | Settles(s, es, t) ensures t.taskCounts == Done(t) {
        SureSettles(s, es, t);
      }
    } else if p :| Waits(s, p) && !TaskRight(s, s.recounts[p]) {
      var es, m := OthersEnd(s, p);
      var t := EndsAlone(m, p);
      RunConcat(s, es, m, Rest(p, m.recounts[p]), t);
      assert Settles(s, es + Rest(p, m.recounts[p]), t);
    } else if s.recounts == map[] {
      assert Settles(s, [], s);
    } else {
      var p :| p in s.recounts && !TaskRight(s, s.recounts[p]);
      forall q | q in s.recounts ensures q == p {
        assert !Waits(s, q) && !Waits(s, p);
      }
      var t := EndsAlone(s, p);
      assert t.recounts == map[];
      assert Settles(s, Rest(p, s.recounts[p]), t);
    }
  }

  // ---- The project's counter

  /** A recount of the task that has yet to count the project's videos. */
  predicate ToCountProject(s: State, p: Proc) { p in s.recounts && !s.recounts[p].CountedBoth? }

  /** A recount that has counted them, rightly as things stand. */
  predicate ProjectRight(s: State, p: Proc) {
    p in s.recounts && s.recounts[p].CountedBoth? && s.recounts[p].project == Done(s)
  }

  predicate OtherRight(s: State, p: Proc) { p in s.others && s.others[p] == Done(s) }

  /** No recount of the task is between its count of the project's videos and its end. */
  ghost predicate NoneCounted(s: State) { forall p :: p in s.recounts ==> !s.recounts[p].CountedBoth? }

  /** The project's counter is right, or a recount that will count the project's videos, or has counted them rightly,
      is still to store. */
  ghost predicate ProjectPromised(s: State) {
    || (exists p :: ToCountProject(s, p)) || (exists p :: ProjectRight(s, p)) || (exists p :: OtherRight(s, p))
    || (NoneCounted(s) && s.projectCounts == Done(s))
  }

  /** Whether an event keeps the promise. The task's own recounts are never the trouble. */
  ghost predicate ProjectAccounted(s: State, e: Event)
    requires Enabled(s, e)
  {
    match e
    case Op(v) =>
      v.Write? && !IsDue(s, v) && Done(s) ==>
        || (exists q :: ToCountProject(s, q)) || (exists q :: q in s.recounts && !ProjectRight(s, q))
        || (exists q :: q in s.others && !s.others[q]) || (NoneCounted(s) && !s.projectCounts)
    case GiveUp(p) =>
      || (exists q :: q != p && ToCountProject(s, q)) || (exists q :: q != p && ProjectRight(s, q))
      || (exists q :: OtherRight(s, q))
      || ((s.recounts[p].CountedBoth? || NoneCounted(s)) && s.projectCounts == Done(s))
    case OtherCommit(p) =>
      || (exists q :: ToCountProject(s, q)) || (exists q :: ProjectRight(s, q))
      || (exists q :: q != p && OtherRight(s, q))
      || (NoneCounted(s) && s.others[p] == Done(s))
    case OtherGiveUp(p) =>
      || (exists q :: ToCountProject(s, q)) || (exists q :: ProjectRight(s, q))
      || (exists q :: q != p && OtherRight(s, q))
      || (NoneCounted(s) && s.projectCounts == Done(s))
    case _ => true
  }

  lemma ProjectPromisedIff(s: State, e: Event)
    requires ProjectPromised(s) && OneHolder(s) && Enabled(s, e)
    ensures ProjectPromised(Next(s, e)) <==> ProjectAccounted(s, e)
  {
    var t := Next(s, e);
    match e {
      case Op(v) => OpProjectPromisedIff(s, v);
      case Join(p) => assert ToCountProject(t, p);
      case Count(p) => assert ToCountProject(t, p);
      case UpdateTask(p) => assert ToCountProject(t, p);
      case CountProject(p) => assert ProjectRight(t, p);
      case Commit(p) => CommitKeepsProject(s, p);
      case GiveUp(p) => GiveUpProjectIff(s, p);
      case OtherCount(p) => assert OtherRight(t, p);
      case OtherCommit(p) => OthersProjectIff(s, e);
      case OtherGiveUp(p) => OthersProjectIff(s, e);
    }
  }

  lemma OpProjectPromisedIff(s: State, e: V.Event)
    requires ProjectPromised(s) && Enabled(s, Op(e))
    ensures ProjectPromised(Next(s, Op(e))) <==> ProjectAccounted(s, Op(e))
  {
    OnlyWritesComplete(s, e);
    hide V.Next, V.Enabled;
    var t := Next(s, Op(e));
    if IsDue(s, e) {
      assert ToCountProject(t, e.p);
    } else {
      assert t.recounts == s.recounts && t.others == s.others;
      assert forall q :: ToCountProject(t, q) <==> ToCountProject(s, q);
      assert forall q :: q in s.recounts && Done(t) == Done(s) ==> (ProjectRight(t, q) <==> ProjectRight(s, q));
      assert forall q :: Done(t) == Done(s) ==> (OtherRight(t, q) <==> OtherRight(s, q));
      if Done(t) != Done(s) {
        assert forall q :: OtherRight(t, q) <==> q in s.others && !s.others[q];
        assert forall q ::
          ToCountProject(t, q) || ProjectRight(t, q) <==> q in s.recounts && (ToCountProject(s, q) || !ProjectRight(s, q));
      }
    }
  }

  lemma CommitKeepsProject(s: State, p: Proc)
    requires ProjectPromised(s) && OneHolder(s) && Enabled(s, Commit(p))
    ensures ProjectPromised(Next(s, Commit(p)))
  {
    var t := Next(s, Commit(p));
    assert forall q :: ToCountProject(t, q) <==> ToCountProject(s, q);
    assert forall q :: OtherRight(t, q) <==> OtherRight(s, q);
    if q :| ProjectRight(s, q) {
      assert q == p;
      assert NoneCounted(t);
    }
  }

  lemma GiveUpProjectIff(s: State, p: Proc)
    requires OneHolder(s) && Enabled(s, GiveUp(p))
    ensures ProjectPromised(Next(s, GiveUp(p))) <==> ProjectAccounted(s, GiveUp(p))
  {
    var t := Next(s, GiveUp(p));
    assert forall q :: ToCountProject(t, q) <==> q != p && ToCountProject(s, q);
    assert forall q :: ProjectRight(t, q) <==> q != p && ProjectRight(s, q);
    assert forall q :: OtherRight(t, q) <==> OtherRight(s, q);
    forall q | q in t.recounts && s.recounts[p].CountedBoth? ensures !t.recounts[q].CountedBoth? {
      assert Holds(s.recounts[p]) && q != p && !Holds(s.recounts[q]);
    }
    if NoneCounted(t) && !s.recounts[p].CountedBoth? {
      forall q | q in s.recounts ensures !s.recounts[q].CountedBoth? {
        assert q != p ==> q in t.recounts && t.recounts[q] == s.recounts[q];
      }
    }
  }

  lemma OthersProjectIff(s: State, e: Event)
    requires Enabled(s, e) && (e.OtherCommit? || e.OtherGiveUp?)
    ensures ProjectPromised(Next(s, e)) <==> ProjectAccounted(s, e)
  {
    var t := Next(s, e);
    assert forall q :: ToCountProject(t, q) <==> ToCountProject(s, q);
    assert forall q :: ProjectRight(t, q) <==> ProjectRight(s, q);
    assert forall q :: OtherRight(t, q) <==> q != e.p && OtherRight(s, q);
    assert NoneCounted(t) <==> NoneCounted(s);
  }

  ghost predicate AlwaysProjectPromised(s: State, es: seq<Event>)
    decreases |es|
  {
    ProjectPromised(s) && (es == [] || (Enabled(s, es[0]) && AlwaysProjectPromised(Next(s, es[0]), es[1..])))
  }

  ghost predicate ProjectAccountable(s: State, es: seq<Event>)
    decreases |es|
  {
    es == [] || (Enabled(s, es[0]) && ProjectAccounted(s, es[0]) && ProjectAccountable(Next(s, es[0]), es[1..]))
  }

  /** The same for the project's counter: only a draft or an assignment that takes a completion away, a recount that is
      given up, and recounts of other tasks can break it. However recounts of the one task overlap, the lock on the
      task's row makes each count the project's videos after the one before it has ended. */
  lemma {:induction false} ProjectSurvivesIff(s: State, es: seq<Event>, t: State)
    requires ProjectPromised(s) && OneHolder(s) && Run(s, es, t)
    ensures AlwaysProjectPromised(s, es) <==> ProjectAccountable(s, es)
    ensures ProjectAccountable(s, es) && t.recounts == map[] && t.others == map[] ==> t.projectCounts == Done(t)
    decreases |es|
  {
    if es != [] {
      ProjectPromisedIff(s, es[0]);
      HolderStep(s, es[0]);
      hide ProjectPromised, ProjectAccounted, OneHolder, Next, Enabled;
      if ProjectPromised(Next(s, es[0])) {
        ProjectSurvivesIff(Next(s, es[0]), es[1..], t);
      }
    }
  }

  /** An event that is neither a draft or an assignment meeting a completed video, nor the end of a recount of another
      task, nor gives a recount up. */
  predicate Ordinary(s: State, e: Event)
    requires Enabled(s, e)
  {
    match e
    case Op(v) => v.Write? && !IsDue(s, v) ==> !Done(s)
    case GiveUp(_) => false
    case OtherCommit(_) => false
    case OtherGiveUp(_) => false
    case _ => true
  }

  predicate OrdinaryRun(s: State, es: seq<Event>)
    decreases |es|
  {
    es == [] || (Enabled(s, es[0]) && Ordinary(s, es[0]) && OrdinaryRun(Next(s, es[0]), es[1..]))
  }

  lemma {:induction false} OrdinaryIsAccountable(s: State, es: seq<Event>)
    requires OrdinaryRun(s, es)
    ensures ProjectAccountable(s, es)
    decreases |es|
  {
    if es != [] {
      assert ProjectAccounted(s, es[0]);
      hide ProjectAccounted, Ordinary, Next, Enabled;
      OrdinaryIsAccountable(Next(s, es[0]), es[1..]);
    }
  }

  /** In particular overlapping operations and recounts of one task, however many, never make its project's counter
      wrong, although they do make its own wrong. */
  lemma OverlapSparesTheProject(unique: bool, es: seq<Event>, t: State)
    requires Run(Init(unique), es, t) && OrdinaryRun(Init(unique), es)
    requires t.recounts == map[] && t.others == map[]
    ensures t.projectCounts == Done(t)
  {
    OrdinaryIsAccountable(Init(unique), es);
    ProjectSurvivesIff(Init(unique), es, t);
  }

  // ---- Runs that go wrong

  /** Nothing is under way. */
  predicate Quiet(s: State) { s.video.pending == map[] && s.recounts == map[] && s.others == map[] }

  /** What stays when only the video and the recount of p change. */
  predicate Beside(s: State, t: State) {
    && t.video.pending == s.video.pending && t.video.scorer == s.video.scorer && t.others == s.others
    && t.taskCounts == s.taskCounts && t.projectCounts == s.projectCounts
  }

  /** An AI operation that nothing disturbs. */
  lemma Evaluates(unique: bool, s: State, p: Proc, outcome: V.AiOutcome) returns (t: State)
    requires Reachable(unique, s) && Idle(s, p) && p !in s.video.pending
    ensures Reachable(unique, t) && Beside(s, t) && t.recounts == s.recounts[p := Due]
    ensures t.video.manual == s.video.manual && t.video.ai == outcome
    ensures t.video.overall == ResolveOverall(s.video.manual, outcome)
  {
    var e0, e1 := Op(V.ReadForAi(p, outcome)), Op(V.Write(p));
    ReachableNext(unique, s, e0);
    ReachableNext(unique, Next(s, e0), e1);
    t := Next(Next(s, e0), e1);
  }

  /** A draft or a submission that nothing disturbs. */
  lemma Reviews(unique: bool, s: State, p: Proc, target: ManualStatus) returns (t: State)
    requires Reachable(unique, s) && Idle(s, p) && p !in s.video.pending
    requires target != ManualPending && s.video.manual != ManualSubmitted && s.video.scorer == Some(V.SCORER)
    ensures Reachable(unique, t) && Beside(s, t)
    ensures t.recounts == if target == ManualSubmitted then s.recounts[p := Due] else s.recounts
    ensures t.video.manual == target && t.video.ai == s.video.ai
    ensures t.video.overall == ResolveOverall(target, s.video.ai)
  {
    var m := s.(video := V.Next(s.video, V.Look(p, target, V.SCORER)));
    ReachableNext(unique, s, Op(V.Look(p, target, V.SCORER)));
    t := Continues(unique, m, p);
  }

  /** One that has passed its guard. */
  lemma Continues(unique: bool, s: State, p: Proc) returns (t: State)
    requires Reachable(unique, s) && Idle(s, p)
    requires p in s.video.pending && s.video.pending[p].Looked? && s.video.pending[p].target != ManualPending
    requires s.video.scorer == Some(s.video.pending[p].who)
    ensures Reachable(unique, t) && Beside(s.(video := s.video.(pending := s.video.pending - {p})), t)
    ensures
      var target := s.video.pending[p].target;
      && t.recounts == (if target == ManualSubmitted then s.recounts[p := Due] else s.recounts)
      && t.video.manual == target && t.video.ai == s.video.ai
      && t.video.overall == ResolveOverall(target, s.video.ai)
  {
    var e0, e1, e2 := Op(V.LookAgain(p)), Op(V.Find(p)), Op(V.Write(p));
    ReachableNext(unique, s, e0);
    var s1 := Next(s, e0);
    ReachableNext(unique, s1, e1);
    var s2 := Next(s1, e1);
    ReachableNext(unique, s2, e2);
    t := Next(s2, e2);
  }

  /** A recount that nothing disturbs. */
  lemma Recounted(unique: bool, s: State, p: Proc) returns (t: State)
    requires Reachable(unique, s)
    requires p in s.recounts && forall q :: q in s.recounts && q != p ==> !Holds(s.recounts[q])
    ensures Reachable(unique, t)
    ensures t.video == s.video && t.others == s.others && t.recounts == s.recounts - {p}
    ensures t.taskCounts == if s.recounts[p].Due? then Done(s) else s.recounts[p].task
    ensures t.projectCounts == if s.recounts[p].CountedBoth? then s.recounts[p].project else Done(s)
  {
    t := EndsAlone(s, p);
    hide Run;
    var es :| Run(Init(unique), es, s);
    RunConcat(Init(unique), es, s, Rest(p, s.recounts[p]), t);
  }

  /** A video whose evaluation is completed and recounted, and whose review has not begun. */
  lemma EvaluatedIsReached(unique: bool) returns (t: State)
    ensures Reachable(unique, t) && Quiet(t) && !t.taskCounts && !t.projectCounts && t.video.scorer == Some(V.SCORER)
    ensures t.video.manual == ManualPending && t.video.ai == AiCompleted && t.video.overall == OverallInProgress
  {
    t := ProcessingIsReached(unique);
    t := Evaluates(unique, t, 0, AiCompleted);
    t := Recounted(unique, t, 0);
    assert t.recounts == map[];
  }

  lemma AssignedIsReached(unique: bool) returns (t: State)
    ensures Reachable(unique, t) && Quiet(t) && !t.taskCounts && !t.projectCounts && t.video.scorer == Some(V.SCORER)
    ensures t.video.manual == ManualPending
  {
    var s0 := Init(unique);
    assert Run(s0, [], s0);
    var e0, e1, e2 := Op(V.Look(0, ManualPending, V.SCORER)), Op(V.LookAgain(0)), Op(V.Write(0));
    ReachableNext(unique, s0, e0);
    var s1 := Next(s0, e0);
    ReachableNext(unique, s1, e1);
    var s2 := Next(s1, e1);
    ReachableNext(unique, s2, e2);
    t := Next(s2, e2);
    assert t.video.pending == map[];
  }

  lemma ProcessingIsReached(unique: bool) returns (t: State)
    ensures Reachable(unique, t) && Quiet(t) && !t.taskCounts && !t.projectCounts && t.video.scorer == Some(V.SCORER)
    ensures t.video.manual == ManualPending && t.video.ai == AiProcessing
  {
    t := AssignedIsReached(unique);
    t := Evaluates(unique, t, 0, AiProcessing);
    t := Recounted(unique, t, 0);
    assert t.recounts == map[];
  }

  /** A completing evaluation and a submission whose recounts overlap: the first counts before the submission and
      stores after the second, and the completed video is not counted by its task; its project does count it. */
  lemma OverlappingRecountsMiscount(unique: bool)
    ensures exists s :: Reachable(unique, s) && Quiet(s) && Done(s) && !s.taskCounts && s.projectCounts
  {
    var s := ProcessingIsReached(unique);
    var s1 := Evaluates(unique, s, 0, AiCompleted);
    ReachableNext(unique, s1, Count(0));
    var s2 := Next(s1, Count(0));
    var s3 := Reviews(unique, s2, 1, ManualSubmitted);
    var s4 := Recounted(unique, s3, 1);
    var s5 := Recounted(unique, s4, 0);
    assert s5.recounts == map[];
  }

  /** A draft that passed its guard before the submission undoes it, and both counters go on counting the video. */
  lemma LateDraftMiscounts(unique: bool)
    ensures exists s :: Reachable(unique, s) && Quiet(s) && s.video.manual == ManualInProgress && !Done(s)
                        && s.taskCounts && s.projectCounts
  {
    var s := EvaluatedIsReached(unique);
    ReachableNext(unique, s, Op(V.Look(2, ManualInProgress, V.SCORER)));
    var s1 := Next(s, Op(V.Look(2, ManualInProgress, V.SCORER)));
    assert s1.video.pending == map[2 := V.Looked(AiCompleted, ManualInProgress, V.SCORER)];
    var s2 := Reviews(unique, s1, 1, ManualSubmitted);
    var s3 := Recounted(unique, s2, 1);
    assert s3.recounts == map[];
    var s4 := Continues(unique, s3, 2);
    assert s4.video.pending == map[];
  }

  /** A recount of another task that counts the project's videos before the submission and stores afterwards: the
      completed video is counted by its task and not by its project. */
  lemma OtherTasksMiscount(unique: bool)
    ensures exists s :: Reachable(unique, s) && Quiet(s) && Done(s) && s.taskCounts && !s.projectCounts
  {
    var s := EvaluatedIsReached(unique);
    ReachableNext(unique, s, OtherCount(2));
    var s1 := Next(s, OtherCount(2));
    var s2 := Reviews(unique, s1, 1, ManualSubmitted);
    var s3 := Recounted(unique, s2, 1);
    ReachableNext(unique, s3, OtherCommit(2));
    var s4 := Next(s3, OtherCommit(2));
    assert s4.recounts == map[] && s4.others == map[];
  }
}

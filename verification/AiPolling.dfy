/**
 AI evaluations of videos: request handlers create them and hand them to the provider, one poller asks
 the provider about them in rounds, and all of it interleaves. An evaluation's index is its creation order.
 No write looks at what it overwrites: each evaluation has one writer at a time, its creator until the
 provider's job id is stored and the poller afterwards. A creation looks for a running evaluation in one
 statement and inserts the new one in another; what follows from that is part of the model.
 */
module AiPolling {
  import opened Wrappers
  import opened EvaluationStatus

  type VideoId = nat
  type EvalId = nat
  type Creator = nat

  datatype EvalStatus = Processing | Completed | Failed

  datatype Eval = Eval(video: VideoId, status: EvalStatus, hasJob: bool, updatedAt: Time)

  datatype CreatorPc = Checked(video: VideoId) | Created(video: VideoId, id: EvalId)

  /** `batch` are the evaluations listed for this round and not yet dealt with. */
  datatype State = State(
    now: Time,
    evals: seq<Eval>,
    videoAi: map<VideoId, AiStatus>,
    creators: map<Creator, CreatorPc>,
    batch: set<EvalId>)

  datatype Answer = StillProcessing | JobCompleted | JobFailed

  datatype Event =
    | Check(c: Creator, v: VideoId, force: bool)
    | Insert(c: Creator)
    | Dispatched(c: Creator)
    | DispatchFails(c: Creator)
    | CreatorDies(c: Creator)
    | List(ids: set<EvalId>)
    | Poll(id: EvalId, answer: Answer)
    | Skip(id: EvalId)
    | Restart

  function Init(): State { State(0, [], map[], map[], {}) }

  function NewestBelow(evals: seq<Eval>, v: VideoId, n: nat): (r: Option<nat>)
    requires n <= |evals|
    ensures r.None? ==> forall i :: 0 <= i < n ==> evals[i].video != v
    ensures r.Some? ==> r.value < n && evals[r.value].video == v
    ensures r.Some? ==> forall i :: r.value < i < n ==> evals[i].video != v
  {
    if n == 0 then None
    else if evals[n - 1].video == v then Some(n - 1)
    else NewestBelow(evals, v, n - 1)
  }

  function Newest(evals: seq<Eval>, v: VideoId): Option<nat> { NewestBelow(evals, v, |evals|) }

  function AiOf(s: State, v: VideoId): AiStatus { if v in s.videoAi then s.videoAi[v] else AiPending }

  function AiOfStatus(st: EvalStatus): AiStatus {
    match st case Processing => AiProcessing case Completed => AiCompleted case Failed => AiFailed
  }

  // ---- Selection of candidates

  predicate Candidate(s: State, id: EvalId) {
    id < |s.evals| && s.evals[id].status == Processing && s.evals[id].hasJob
  }

  function Candidates(s: State): set<EvalId> { set id | 0 <= id < |s.evals| && Candidate(s, id) }

  /** The `size` candidates that were written longest ago, or all of them. */
  predicate Oldest(s: State, ids: set<EvalId>, size: nat) {
    && (forall id :: id in ids ==> Candidate(s, id))
    && |ids| == (if |Candidates(s)| < size then |Candidates(s)| else size)
    && forall x, y :: x in ids && y in Candidates(s) - ids ==> s.evals[x].updatedAt < s.evals[y].updatedAt
  }

  // ---- Steps

  predicate MayCreate(s: State, v: VideoId, force: bool) {
    var newest := Newest(s.evals, v);
    newest.Some? ==> s.evals[newest.value].status != Processing && force
  }

  /** The video has no evaluation, or its last one is finished and the creation is forced. */
  predicate Creatable(evals: seq<Eval>, v: VideoId, force: bool) {
    || (forall i :: 0 <= i < |evals| ==> evals[i].video != v)
    || (force && exists i ::
          && 0 <= i < |evals| && evals[i].video == v && (forall j :: i < j < |evals| ==> evals[j].video != v)
          && evals[i].status != Processing)
  }

  lemma MayCreateIff(s: State, v: VideoId, force: bool)
    ensures MayCreate(s, v, force) <==> Creatable(s.evals, v, force)
  {
    var newest := Newest(s.evals, v);
    if newest.Some? {
      assert s.evals[newest.value].video == v;
    }
  }

  /** `size` is the poller's batch size; the source never polls with a size of zero. */
  predicate Enabled(size: nat, s: State, e: Event) {
    match e
    case Check(c, _, _) => c !in s.creators
    case Insert(c) => c in s.creators && s.creators[c].Checked?
    case Dispatched(c) => c in s.creators && s.creators[c].Created? && s.creators[c].id < |s.evals|
    case DispatchFails(c) => c in s.creators && s.creators[c].Created? && s.creators[c].id < |s.evals|
    case CreatorDies(c) => c in s.creators
    case List(ids) => s.batch == {} && Oldest(s, ids, size)
    case Poll(id, _) => id in s.batch && id < |s.evals|
    case Skip(id) => id in s.batch
    case Restart => true
  }

  function Wrote(s: State, id: EvalId, status: EvalStatus): State
    requires id < |s.evals|
  {
    s.(evals := s.evals[id := s.evals[id].(status := status, updatedAt := s.now)],
       videoAi := s.videoAi[s.evals[id].video := AiOfStatus(status)])
  }

  /** A round's poll of an evaluation that is still processing writes only its time, and the video. */
  function Polled(s: State, id: EvalId, answer: Answer): State
    requires id < |s.evals|
  {
    match answer
    case StillProcessing =>
      s.(evals := s.evals[id := s.evals[id].(updatedAt := s.now)],
         videoAi := s.videoAi[s.evals[id].video := AiProcessing])
    case JobCompleted => Wrote(s, id, Completed)
    case JobFailed => Wrote(s, id, Failed)
  }

  function Next(size: nat, s: State, e: Event): State
    requires Enabled(size, s, e)
  {
    var t :=
      match e
      case Check(c, v, force) =>
        if MayCreate(s, v, force) then s.(creators := s.creators[c := Checked(v)]) else s
      case Insert(c) =>
        var v := s.creators[c].video;
        s.(evals := s.evals + [Eval(v, Processing, false, s.now)],
           videoAi := s.videoAi[v := AiProcessing],
           creators := s.creators[c := Created(v, |s.evals|)])
      case Dispatched(c) =>
        var id := s.creators[c].id;
        s.(evals := s.evals[id := s.evals[id].(hasJob := true, updatedAt := s.now)], creators := s.creators - {c})
      case DispatchFails(c) => Wrote(s, s.creators[c].id, Failed).(creators := s.creators - {c})
      case CreatorDies(c) => s.(creators := s.creators - {c})
      case List(ids) => s.(batch := ids)
      case Poll(id, answer) => Polled(s, id, answer).(batch := s.batch - {id})
      case Skip(id) => s.(batch := s.batch - {id})
      case Restart => s.(creators := map[], batch := {});
    t.(now := s.now + 1)
  }

  /** A creation is let through if and only if the video is creatable when it looks; one that is refused leaves nothing
      behind. */
  lemma CheckAdmitsIff(size: nat, s: State, c: Creator, v: VideoId, force: bool)
    requires Enabled(size, s, Check(c, v, force))
    ensures
      var t := Next(size, s, Check(c, v, force));
      && t == s.(now := s.now + 1, creators := t.creators)
      && t.creators == if Creatable(s.evals, v, force) then s.creators[c := Checked(v)] else s.creators
  {
    MayCreateIff(s, v, force);
  }

  predicate Run(size: nat, s: State, es: seq<Event>, t: State)
    decreases |es|
  {
    if es == [] then s == t else Enabled(size, s, es[0]) && Run(size, Next(size, s, es[0]), es[1..], t)
  }

  // ---- What every step keeps

  /** What is listed is still to be polled, and what a creator has inserted is still his. */
  ghost predicate Owned(size: nat, s: State) {
    && |s.batch| <= size
    && (forall id :: id in s.batch ==> Candidate(s, id))
    && (forall c :: c in s.creators && s.creators[c].Created? ==> InHand(s, s.creators[c].video, s.creators[c].id))
    && (forall c, d :: c in s.creators && d in s.creators && c != d && s.creators[c].Created? && s.creators[d].Created? ==>
          s.creators[c].id != s.creators[d].id)
  }

  predicate InHand(s: State, v: VideoId, id: EvalId) {
    id < |s.evals| && s.evals[id].video == v && s.evals[id].status == Processing && !s.evals[id].hasJob
  }

  ghost predicate Timed(s: State) {
    && (forall i :: 0 <= i < |s.evals| ==> s.evals[i].updatedAt < s.now)
    && (forall i, j :: 0 <= i < j < |s.evals| ==> s.evals[i].updatedAt != s.evals[j].updatedAt)
  }

  ghost predicate Inv(size: nat, s: State) { Owned(size, s) && Timed(s) }

  lemma InsertIsOwned(size: nat, s: State, c: Creator)
    requires Owned(size, s) && Enabled(size, s, Insert(c))
    ensures Owned(size, Next(size, s, Insert(c)))
  {
  }

  lemma CreatorWriteIsOwned(size: nat, s: State, e: Event)
    requires Owned(size, s) && Enabled(size, s, e) && (e.Dispatched? || e.DispatchFails?)
    ensures Owned(size, Next(size, s, e))
  {
    hide Newest, AiOfStatus;
  }

  lemma PollIsOwned(size: nat, s: State, e: Event)
    requires Owned(size, s) && Enabled(size, s, e) && (e.Poll? || e.Skip?)
    ensures Owned(size, Next(size, s, e))
  {
    hide Newest, AiOfStatus;
    SmallerSet(s.batch - {e.id}, s.batch);
  }

  lemma OtherIsOwned(size: nat, s: State, e: Event)
    requires Owned(size, s) && Enabled(size, s, e)
    requires e.Check? || e.CreatorDies? || e.List? || e.Restart?
    ensures Owned(size, Next(size, s, e))
  {
    hide Newest;
  }

  lemma OwnedStep(size: nat, s: State, e: Event)
    requires Inv(size, s) && Enabled(size, s, e)
    ensures Owned(size, Next(size, s, e))
  {
    hide Owned, Timed, Next, Enabled;
    match e {
      case Insert(c) => InsertIsOwned(size, s, c);
      case Dispatched(_) => CreatorWriteIsOwned(size, s, e);
      case DispatchFails(_) => CreatorWriteIsOwned(size, s, e);
      case Poll(_, _) => PollIsOwned(size, s, e);
      case Skip(_) => PollIsOwned(size, s, e);
      case _ => OtherIsOwned(size, s, e);
    }
  }

  lemma TimedStep(size: nat, s: State, e: Event)
    requires Inv(size, s) && Enabled(size, s, e)
    ensures Timed(Next(size, s, e))
  {
    hide Newest, AiOfStatus, Candidate, InHand;
  }

  lemma StepKeeps(size: nat, s: State, e: Event)
    requires Inv(size, s) && Enabled(size, s, e)
    ensures Inv(size, Next(size, s, e))
  {
    OwnedStep(size, s, e);
    TimedStep(size, s, e);
    hide Owned, Timed;
  }

  lemma {:induction false} RunKeeps(size: nat, s: State, es: seq<Event>, t: State)
    requires Inv(size, s) && Run(size, s, es, t)
    ensures Inv(size, t)
    decreases |es|
  {
    if es != [] {
      StepKeeps(size, s, es[0]);
      RunKeeps(size, Next(size, s, es[0]), es[1..], t);
    }
  }

  ghost predicate Reachable(size: nat, s: State) { exists es :: Run(size, Init(), es, s) }

  lemma ReachableInv(size: nat, s: State)
    requires Reachable(size, s)
    ensures Inv(size, s)
  {
    var es :| Run(size, Init(), es, s);
    RunKeeps(size, Init(), es, s);
  }

  // ---- What holds in every run

  lemma OwnerWrites(size: nat, s: State, e: Event, i: nat)
    requires Inv(size, s) && Enabled(size, s, e) && i < |s.evals|
    ensures i < |Next(size, s, e).evals| && Next(size, s, e).evals[i].video == s.evals[i].video
    ensures s.evals[i].status != Processing ==> Next(size, s, e).evals[i] == s.evals[i]
    ensures Next(size, s, e).evals[i] != s.evals[i] ==>
              if s.evals[i].hasJob then e.Poll? && e.id == i
              else (e.Dispatched? || e.DispatchFails?) && s.creators[e.c].id == i
  {
  }

  /** A completed or failed evaluation is never written again, and a processing one only by its owner: its
      creator while it has no job id, the poller's own poll of it from then on. */
  lemma OnlyTheOwnerWrites(size: nat, s: State, e: Event, i: nat)
    requires Reachable(size, s) && Enabled(size, s, e) && i < |s.evals|
    ensures s.evals[i].status != Processing ==> Next(size, s, e).evals[i] == s.evals[i]
    ensures Next(size, s, e).evals[i] != s.evals[i] ==>
              if s.evals[i].hasJob then e.Poll? && e.id == i
              else (e.Dispatched? || e.DispatchFails?) && s.creators[e.c].id == i
  {
    ReachableInv(size, s);
    OwnerWrites(size, s, e, i);
  }

  lemma {:induction false} FinishedThrough(size: nat, s: State, es: seq<Event>, t: State, i: nat)
    requires Inv(size, s) && Run(size, s, es, t) && i < |s.evals| && s.evals[i].status != Processing
    ensures i < |t.evals| && t.evals[i] == s.evals[i]
    decreases |es|
  {
    if es != [] {
      OwnerWrites(size, s, es[0], i);
      StepKeeps(size, s, es[0]);
      FinishedThrough(size, Next(size, s, es[0]), es[1..], t, i);
    }
  }

  /** Completed and failed are for ever. */
  lemma FinishedIsForever(size: nat, s: State, es: seq<Event>, t: State, i: nat)
    requires Reachable(size, s) && Run(size, s, es, t) && i < |s.evals| && s.evals[i].status != Processing
    ensures i < |t.evals| && t.evals[i] == s.evals[i]
  {
    ReachableInv(size, s);
    FinishedThrough(size, s, es, t, i);
  }

  // ---- One evaluation at a time

  lemma NewestSame(evals: seq<Eval>, evals': seq<Eval>, v: VideoId, n: nat)
    requires n <= |evals| && n <= |evals'|
    requires forall i :: 0 <= i < n ==> evals[i].video == evals'[i].video
    ensures NewestBelow(evals, v, n) == NewestBelow(evals', v, n)
  {
  }

  lemma NewestAppended(evals: seq<Eval>, e: Eval, v: VideoId)
    ensures Newest(evals + [e], v) == if e.video == v then Some(|evals|) else Newest(evals, v)
  {
    NewestSame(evals, evals + [e], v, |evals|);
  }

  /** A write to one evaluation by its owner, shown on its video. */
  ghost predicate Rewrites(s: State, t: State, id: EvalId) {
    && id < |s.evals| && s.evals[id].status == Processing
    && |t.evals| == |s.evals| && t.evals == s.evals[id := t.evals[id]]
    && t.evals[id].video == s.evals[id].video && t.evals[id].updatedAt == s.now && t.now == s.now + 1
    && AiOf(t, s.evals[id].video) == AiOfStatus(t.evals[id].status)
    && (forall v :: v != s.evals[id].video ==> AiOf(t, v) == AiOf(s, v))
  }

  lemma RewriteKeepsShown(s: State, t: State, id: EvalId)
    requires Shown(s) && Rewrites(s, t, id)
    ensures Shown(t)
    ensures forall v :: Newest(t.evals, v) == Newest(s.evals, v)
    ensures Newest(s.evals, s.evals[id].video) == Some(id)
  {
    var newest := Newest(s.evals, s.evals[id].video);
    assert newest == Some(id);
    forall v ensures Newest(t.evals, v) == Newest(s.evals, v) {
      NewestSame(s.evals, t.evals, v, |s.evals|);
    }
  }

  /** Only the newest evaluation of a video may be processing. */
  ghost predicate OneProcessing(s: State) {
    forall i, j :: 0 <= i < j < |s.evals| && s.evals[i].video == s.evals[j].video ==> s.evals[i].status != Processing
  }

  /** Each video shows the status of its newest evaluation. */
  ghost predicate VideosMatch(s: State) {
    forall v :: AiOf(s, v) == match Newest(s.evals, v) case None => AiPending case Some(i) => AiOfStatus(s.evals[i].status)
  }

  ghost predicate Shown(s: State) { OneProcessing(s) && VideosMatch(s) }

  /** No evaluation of the video is processing. */
  predicate Idle(s: State, v: VideoId) {
    forall i :: 0 <= i < |s.evals| && s.evals[i].video == v ==> s.evals[i].status != Processing
  }

  /** A creation keeps to one processing evaluation if and only if the video is idle when it inserts. */
  lemma InsertKeepsOneIff(size: nat, s: State, c: Creator)
    requires OneProcessing(s) && Enabled(size, s, Insert(c))
    ensures OneProcessing(Next(size, s, Insert(c))) <==> Idle(s, s.creators[c].video)
  {
    var t := Next(size, s, Insert(c));
    var n := |s.evals|;
    if OneProcessing(t) {
      forall i | 0 <= i < n && s.evals[i].video == s.creators[c].video ensures s.evals[i].status != Processing {
        assert t.evals[i].video == t.evals[n].video;
      }
    }
  }

  lemma InsertShows(size: nat, s: State, c: Creator)
    requires VideosMatch(s) && Enabled(size, s, Insert(c))
    ensures VideosMatch(Next(size, s, Insert(c)))
  {
    var t := Next(size, s, Insert(c));
    forall u ensures Newest(t.evals, u) == if u == s.creators[c].video then Some(|s.evals|) else Newest(s.evals, u) {
      NewestAppended(s.evals, t.evals[|s.evals|], u);
    }
    hide Newest;
  }

  lemma WriteShows(size: nat, s: State, e: Event)
    requires Inv(size, s) && Shown(s) && Enabled(size, s, e) && (e.Dispatched? || e.DispatchFails? || e.Poll?)
    ensures Shown(Next(size, s, e))
  {
    var id := if e.Poll? then e.id else s.creators[e.c].id;
    assert Newest(s.evals, s.evals[id].video) == Some(id);
    assert AiOf(s, s.evals[id].video) == AiProcessing;
    RewriteKeepsShown(s, Next(size, s, e), id);
  }

  lemma OtherShows(size: nat, s: State, e: Event)
    requires Shown(s) && Enabled(size, s, e)
    requires e.Check? || e.CreatorDies? || e.List? || e.Skip? || e.Restart?
    ensures Shown(Next(size, s, e))
  {
    hide Newest;
    assert forall v :: AiOf(Next(size, s, e), v) == AiOf(s, v);
  }

  /** Whether the event, if it inserts, finds its video idle. */
  predicate Gentle(s: State, e: Event) { e.Insert? && e.c in s.creators ==> Idle(s, s.creators[e.c].video) }

  lemma ShownStep(size: nat, s: State, e: Event)
    requires Inv(size, s) && Shown(s) && Enabled(size, s, e)
    ensures OneProcessing(Next(size, s, e)) <==> Gentle(s, e)
    ensures Gentle(s, e) ==> Shown(Next(size, s, e))
  {
    hide VideosMatch, Idle, Next;
    if e.Insert? {
      InsertKeepsOneIff(size, s, e.c);
      InsertShows(size, s, e.c);
    } else if e.Dispatched? || e.DispatchFails? || e.Poll? {
      WriteShows(size, s, e);
    } else {
      OtherShows(size, s, e);
    }
  }

  /** A run all of whose inserts find their video idle. */
  predicate Spaced(size: nat, s: State, es: seq<Event>)
    decreases |es|
  {
    es == [] || (Enabled(size, s, es[0]) && Gentle(s, es[0]) && Spaced(size, Next(size, s, es[0]), es[1..]))
  }

  /** A run in which no video ever has two evaluations processing. */
  ghost predicate AlwaysOne(size: nat, s: State, es: seq<Event>)
    decreases |es|
  {
    OneProcessing(s) && (es == [] || (Enabled(size, s, es[0]) && AlwaysOne(size, Next(size, s, es[0]), es[1..])))
  }

  lemma {:induction false} SpacedThrough(size: nat, s: State, es: seq<Event>, t: State)
    requires Inv(size, s) && Shown(s) && Run(size, s, es, t)
    ensures Spaced(size, s, es) <==> AlwaysOne(size, s, es)
    ensures Spaced(size, s, es) ==> Shown(t)
    decreases |es|
  {
    if es != [] {
      hide VideosMatch, Gentle;
      ShownStep(size, s, es[0]);
      StepKeeps(size, s, es[0]);
      if OneProcessing(Next(size, s, es[0])) {
        SpacedThrough(size, Next(size, s, es[0]), es[1..], t);
      }
    }
  }

  lemma InitShows(size: nat)
    ensures Inv(size, Init()) && Shown(Init())
  {
  }

  /** No video ever has two evaluations processing if and only if every creation inserts while its video is
      idle. */
  lemma OneProcessingIff(size: nat, es: seq<Event>, s: State)
    requires Run(size, Init(), es, s)
    ensures AlwaysOne(size, Init(), es) <==> Spaced(size, Init(), es)
  {
    InitShows(size);
    SpacedThrough(size, Init(), es, s);
  }

  /** In such a run only the newest evaluation of a video may be processing, and the video's AI status is that
      evaluation's, or pending if it has none. */
  lemma VideoShowsNewest(size: nat, es: seq<Event>, s: State, v: VideoId)
    requires Run(size, Init(), es, s) && Spaced(size, Init(), es)
    ensures forall i :: 0 <= i < |s.evals| && s.evals[i].video == v && s.evals[i].status == Processing ==>
              Newest(s.evals, v) == Some(i)
    ensures Newest(s.evals, v).None? ==> AiOf(s, v) == AiPending
    ensures Newest(s.evals, v).Some? ==> AiOf(s, v) == AiOfStatus(s.evals[Newest(s.evals, v).value].status)
  {
    InitShows(size);
    SpacedThrough(size, Init(), es, s);
  }

  /** A run in which no creation starts while another one for its video is under way. */
  predicate Serial(size: nat, s: State, es: seq<Event>)
    decreases |es|
  {
    es == [] ||
    (Enabled(size, s, es[0]) && (es[0].Check? ==> Alone(s, es[0].v)) && Serial(size, Next(size, s, es[0]), es[1..]))
  }

  predicate Alone(s: State, v: VideoId) { forall c :: c in s.creators ==> s.creators[c].video != v }

  ghost predicate Apart(s: State) {
    && (forall c, d :: c in s.creators && d in s.creators && c != d ==> s.creators[c].video != s.creators[d].video)
    && (forall c :: c in s.creators && s.creators[c].Checked? ==> Idle(s, s.creators[c].video))
  }

  lemma CheckFindsIdle(s: State, v: VideoId, force: bool)
    requires OneProcessing(s) && MayCreate(s, v, force)
    ensures Idle(s, v)
  {
  }

  lemma StaysIdle(size: nat, s: State, e: Event, v: VideoId)
    requires Inv(size, s) && Enabled(size, s, e) && Idle(s, v)
    requires e.Insert? ==> s.creators[e.c].video != v
    ensures Idle(Next(size, s, e), v)
  {
    forall i | 0 <= i < |s.evals| && s.evals[i].video == v ensures Next(size, s, e).evals[i] == s.evals[i] {
      OwnerWrites(size, s, e, i);
    }
    hide Newest, AiOfStatus;
  }

  lemma ApartStep(size: nat, s: State, e: Event)
    requires Inv(size, s) && OneProcessing(s) && Apart(s) && Enabled(size, s, e) && (e.Check? ==> Alone(s, e.v))
    ensures Gentle(s, e) && Apart(Next(size, s, e))
  {
    var t := Next(size, s, e);
    forall c | c in t.creators && t.creators[c].Checked? ensures Idle(t, t.creators[c].video) {
      if e.Check? && e.c == c {
        CheckFindsIdle(s, e.v, e.force);
      }
      assert Idle(s, t.creators[c].video);
      StaysIdle(size, s, e, t.creators[c].video);
    }
  }

  lemma {:induction false} SerialThrough(size: nat, s: State, es: seq<Event>)
    requires Inv(size, s) && Shown(s) && Apart(s) && Serial(size, s, es)
    ensures Spaced(size, s, es)
    decreases |es|
  {
    if es != [] {
      hide VideosMatch, Gentle, Apart, Alone;
      ApartStep(size, s, es[0]);
      ShownStep(size, s, es[0]);
      StepKeeps(size, s, es[0]);
      SerialThrough(size, Next(size, s, es[0]), es[1..]);
    }
  }

  /** Serialised creations are enough. */
  lemma SerialRunsAreSpaced(size: nat, es: seq<Event>)
    requires Serial(size, Init(), es)
    ensures Spaced(size, Init(), es)
  {
    InitShows(size);
    assert Apart(Init());
    SerialThrough(size, Init(), es);
  }

  lemma {:induction false} RunConcat(size: nat, s: State, es: seq<Event>, m: State, fs: seq<Event>, t: State)
    requires Run(size, s, es, m) && Run(size, m, fs, t)
    ensures Run(size, s, es + fs, t) && Rounds(es + fs) == Rounds(es) + Rounds(fs)
    ensures Skips(es + fs) == Skips(es) + Skips(fs) && Restarts(es + fs) == Restarts(es) + Restarts(fs)
    decreases |es|
  {
    if es == [] {
      assert es + fs == fs;
    } else {
      RunConcat(size, Next(size, s, es[0]), es[1..], m, fs, t);
      assert (es + fs)[0] == es[0] && (es + fs)[1..] == es[1..] + fs;
    }
  }

  lemma ReachableNext(size: nat, s: State, e: Event)
    requires Reachable(size, s) && Enabled(size, s, e)
    ensures Reachable(size, Next(size, s, e))
  {
    var es :| Run(size, Init(), es, s);
    assert Run(size, s, [e], Next(size, s, e));
    RunConcat(size, Init(), es, s, [e], Next(size, s, e));
  }

  /** Two creations for one video that both look before either inserts. */
  lemma OverlappingCreationsBothProcess(size: nat, v: VideoId)
    ensures exists s :: Reachable(size, s) && |s.evals| == 2 && s.evals[0].video == s.evals[1].video == v
                        && s.evals[0].status == Processing && s.evals[1].status == Processing
  {
    assert Run(size, Init(), [], Init());
    ReachableNext(size, Init(), Check(0, v, false));
    var s1 := Next(size, Init(), Check(0, v, false));
    ReachableNext(size, s1, Check(1, v, false));
    var s2 := Next(size, s1, Check(1, v, false));
    ReachableNext(size, s2, Insert(0));
    var s3 := Next(size, s2, Insert(0));
    ReachableNext(size, s3, Insert(1));
    var s4 := Next(size, s3, Insert(1));
    assert s4.evals[0].status == Processing && s4.evals[1].status == Processing;
  }

  // ---- Fairness of the rounds

  /** Candidates written before `id` that this round does not deal with. */
  function Ahead(s: State, id: EvalId): set<EvalId>
    requires id < |s.evals|
  {
    set x | x in Candidates(s) && s.evals[x].updatedAt < s.evals[id].updatedAt && x !in s.batch
  }

  function Rounds(es: seq<Event>): nat {
    if es == [] then 0 else (if es[0].List? then 1 else 0) + Rounds(es[1..])
  }

  /** No round of `es` selects `id`. */
  predicate PassedOver(es: seq<Event>, id: EvalId) {
    forall i :: 0 <= i < |es| && es[i].List? ==> id !in es[i].ids
  }

  function Skips(es: seq<Event>): nat {
    if es == [] then 0 else (if es[0].Skip? then 1 else 0) + Skips(es[1..])
  }

  function Restarts(es: seq<Event>): nat {
    if es == [] then 0 else (if es[0].Restart? then 1 else 0) + Restarts(es[1..])
  }

  lemma ListSkipsAhead(size: nat, s: State, ids: set<EvalId>, id: EvalId)
    requires Enabled(size, s, List(ids)) && Candidate(s, id) && id !in ids
    ensures |Ahead(Next(size, s, List(ids)), id)| + size <= |Ahead(s, id)|
  {
    var t := Next(size, s, List(ids));
    assert id in Candidates(s) - ids;
    assert ids <= Candidates(s) && ids != Candidates(s);
    SmallerSet(ids, Candidates(s));
    assert Candidates(t) == Candidates(s);
    assert Ahead(s, id) == Ahead(t, id) + ids && Ahead(t, id) !! ids;
  }

  lemma StepKeepsWaiting(size: nat, s: State, e: Event, id: EvalId)
    requires Inv(size, s) && Enabled(size, s, e) && Candidate(s, id) && id !in s.batch && !e.List?
    ensures Candidate(Next(size, s, e), id) && id !in Next(size, s, e).batch
    ensures Ahead(Next(size, s, e), id) <=
              Ahead(s, id) + (if e.Skip? then {e.id} else {}) + (if e.Restart? then s.batch else {})
  {
    var t := Next(size, s, e);
    OwnerWrites(size, s, e, id);
    forall x | x in Ahead(t, id) && !(e.Skip? && x == e.id) && !(e.Restart? && x in s.batch) ensures x in Ahead(s, id) {
      if x < |s.evals| {
        OwnerWrites(size, s, e, x);
      }
    }
  }

  lemma SumOfTwo<T>(a: set<T>, b: set<T>)
    ensures |a + b| <= |a| + |b|
  {
    assert a + b == a + (b - a);
    SmallerSet(b - a, b);
  }

  /** A round that passes `id` over takes a full batch from ahead of it; only a poll that writes nothing puts one
      ahead again, and a restart what was left of the batch. */
  lemma StepPays(size: nat, s: State, e: Event, id: EvalId)
    requires Inv(size, s) && Enabled(size, s, e) && Candidate(s, id) && id !in s.batch
    requires e.List? ==> id !in e.ids
    ensures Inv(size, Next(size, s, e))
    ensures Candidate(Next(size, s, e), id) && id !in Next(size, s, e).batch
    ensures |Ahead(Next(size, s, e), id)| + (if e.List? then size else 0) <=
              |Ahead(s, id)| + (if e.Skip? then 1 else 0) + (if e.Restart? then size else 0)
  {
    StepKeeps(size, s, e);
    if e.List? {
      ListSkipsAhead(size, s, e.ids, id);
    } else {
      var t := Next(size, s, e);
      StepKeepsWaiting(size, s, e, id);
      var back := (if e.Skip? then {e.id} else {}) + (if e.Restart? then s.batch else {});
      assert Ahead(t, id) <= Ahead(s, id) + back;
      SmallerSet(Ahead(t, id), Ahead(s, id) + back);
      SumOfTwo(Ahead(s, id), back);
    }
  }

  /** In any run, rounds that pass `id` over are paid for by those ahead of it, by polls that write nothing and
      by restarts. */
  lemma {:induction false} PassedOverPays(size: nat, s: State, es: seq<Event>, t: State, id: EvalId)
    requires Inv(size, s) && Run(size, s, es, t) && PassedOver(es, id)
    requires Candidate(s, id) && id !in s.batch
    ensures Rounds(es) * size <= |Ahead(s, id)| + Skips(es) + Restarts(es) * size
    decreases |es|
  {
    hide Inv, Candidate, Ahead, Next, Enabled;
    if es == [] {
      assert Rounds(es) * size == 0;
    } else {
      StepPays(size, s, es[0], id);
      PassedOverPays(size, Next(size, s, es[0]), es[1..], t, id);
      Distribute(if es[0].List? then 1 else 0, Rounds(es[1..]), size);
      Distribute(if es[0].Restart? then 1 else 0, Restarts(es[1..]), size);
    }
  }

  lemma Distribute(a: nat, b: nat, size: nat)
    ensures (a + b) * size == a * size + b * size
  {
  }

  /** Whatever arrives meanwhile, a candidate is selected within (N + K) / B + R rounds, rounded up, where N is the
      number of candidates now, B the batch size, K the number of polls that write nothing and R that of
      restarts. */
  lemma EveryCandidateIsPolled(size: nat, s: State, es: seq<Event>, t: State, id: EvalId)
    requires Reachable(size, s) && Run(size, s, es, t) && Candidate(s, id)
    requires Rounds(es) * size >= |Candidates(s)| + Skips(es) + Restarts(es) * size
    ensures id in s.batch || exists i :: 0 <= i < |es| && es[i].List? && id in es[i].ids
  {
    ReachableInv(size, s);
    if id !in s.batch && PassedOver(es, id) {
      PassedOverPays(size, s, es, t, id);
      assert id in Candidates(s) && id !in Ahead(s, id);
      SmallerSet(Ahead(s, id), Candidates(s));
    }
  }

  /** So it is selected within N / B rounds, rounded up, when every poll writes and the poller does not restart. */
  lemma PolledWhenPollsWrite(size: nat, s: State, es: seq<Event>, t: State, id: EvalId)
    requires Reachable(size, s) && Run(size, s, es, t) && Candidate(s, id) && Skips(es) == 0 && Restarts(es) == 0
    requires Rounds(es) * size >= |Candidates(s)|
    ensures id in s.batch || exists i :: 0 <= i < |es| && es[i].List? && id in es[i].ids
  {
    EveryCandidateIsPolled(size, s, es, t, id);
  }

  /** There is always a batch to list: the oldest candidates can be picked one at a time. */
  lemma {:induction false} BatchExists(s: State, size: nat) returns (ids: set<EvalId>)
    requires Timed(s)
    ensures Oldest(s, ids, size)
  {
    if size == 0 {
      ids := {};
    } else {
      ids := BatchExists(s, size - 1);
      var rest := Candidates(s) - ids;
      assert ids <= Candidates(s) && Candidates(s) == ids + rest;
      if rest == {} {
        return;
      }
      var next := OldestOf(s, rest);
      OneMoreOldest(s, ids, size - 1, next);
      ids := ids + {next};
    }
  }

  lemma OneMoreOldest(s: State, ids: set<EvalId>, size: nat, next: EvalId)
    requires Oldest(s, ids, size) && next in Candidates(s) - ids
    requires forall y :: y in Candidates(s) - ids && y != next ==> s.evals[next].updatedAt < s.evals[y].updatedAt
    ensures Oldest(s, ids + {next}, size + 1)
  {
    SmallerSet(ids + {next}, Candidates(s));
  }

  lemma {:induction false} OldestOf(s: State, pool: set<EvalId>) returns (x: EvalId)
    requires Timed(s) && pool != {} && forall id :: id in pool ==> id < |s.evals|
    ensures x in pool && forall y :: y in pool && y != x ==> s.evals[x].updatedAt < s.evals[y].updatedAt
    decreases |pool|
  {
    x :| x in pool;
    var first, rest := x, pool - {x};
    assert forall z :: z in pool && z != first ==> z in rest;
    if rest != {} {
      assert |rest| < |pool|;
      var y := OldestOf(s, rest);
      assert y != first && s.evals[y].updatedAt != s.evals[first].updatedAt;
      if s.evals[y].updatedAt < s.evals[first].updatedAt {
        x := y;
      } else {
        forall z | z in pool && z != first ensures s.evals[first].updatedAt < s.evals[z].updatedAt {
          assert z in rest;
        }
      }
    }
  }

  // ---- Why both terms are needed

  /** The set's elements, each once. */
  ghost predicate Lists(order: seq<EvalId>, ids: set<EvalId>) {
    (forall x :: x in ids <==> x in order) && forall i, j :: 0 <= i < j < |order| ==> order[i] != order[j]
  }

  /** One round whose every poll fails without a write. */
  function SkipAll(order: seq<EvalId>): seq<Event> {
    if order == [] then [] else [Skip(order[0])] + SkipAll(order[1..])
  }

  lemma {:induction false} SkipAllRuns(size: nat, s: State, order: seq<EvalId>)
    requires Lists(order, s.batch)
    ensures Run(size, s, SkipAll(order), s.(batch := {}, now := s.now + |order|))
    ensures Rounds(SkipAll(order)) == 0 && Restarts(SkipAll(order)) == 0 && Skips(SkipAll(order)) == |order|
    ensures forall i :: 0 <= i < |SkipAll(order)| ==> SkipAll(order)[i].Skip?
    decreases |order|
  {
    if order == [] {
      assert s.batch == {};
    } else {
      var t := Next(size, s, Skip(order[0]));
      assert order == [order[0]] + order[1..];
      SkipAllRuns(size, t, order[1..]);
      assert SkipAll(order)[1..] == SkipAll(order[1..]);
    }
  }

  lemma BothPassOver(es: seq<Event>, fs: seq<Event>, id: EvalId)
    requires PassedOver(es, id) && PassedOver(fs, id)
    ensures PassedOver(es + fs, id)
  {
  }

  lemma OneMore(k: nat, n: nat)
    requires k > 0
    ensures k * n == n + (k - 1) * n
  {
  }

  lemma RoundOfSkips(size: nat, s: State, ids: set<EvalId>, order: seq<EvalId>, id: EvalId)
    returns (round: seq<Event>, n: State)
    requires s.batch == {} && Oldest(s, ids, size) && Candidate(s, id) && id !in ids
    requires Lists(order, ids)
    ensures Run(size, s, round, n) && PassedOver(round, id)
    ensures Rounds(round) == 1 && Skips(round) == |order| && Restarts(round) == 0
    ensures n.batch == {} && n.evals == s.evals && Oldest(n, ids, size) && Candidate(n, id)
  {
    var m := Next(size, s, List(ids));
    SkipAllRuns(size, m, order);
    n := m.(batch := {}, now := m.now + |order|);
    round := [List(ids)] + SkipAll(order);
    assert round[1..] == SkipAll(order);
    assert Candidates(n) == Candidates(s);
  }

  /** A batch of candidates whose polls keep writing nothing is selected again and again, and a younger candidate
      waits for any number of rounds, each paid for by its skips. */
  lemma {:induction false} StarvedWithoutWrites(size: nat, s: State, ids: set<EvalId>, order: seq<EvalId>, id: EvalId, k: nat)
    returns (es: seq<Event>, t: State)
    requires s.batch == {} && Oldest(s, ids, size) && Candidate(s, id) && id !in ids
    requires Lists(order, ids)
    ensures Run(size, s, es, t) && PassedOver(es, id) && Restarts(es) == 0
    ensures Rounds(es) == k && Skips(es) == k * |order|
    ensures t.batch == {} && t.evals == s.evals
    decreases k
  {
    if k == 0 {
      es, t := [], s;
    } else {
      hide *;
      var round, n := RoundOfSkips(size, s, ids, order, id);
      var rest;
      rest, t := StarvedWithoutWrites(size, n, ids, order, id, k - 1);
      RunConcat(size, s, round, n, rest, t);
      BothPassOver(round, rest, id);
      OneMore(k, |order|);
      es := round + rest;
    }
  }

  /** So is one that a restart cuts off before its polls. */
  lemma {:induction false} StarvedByRestarts(size: nat, s: State, ids: set<EvalId>, id: EvalId, k: nat)
    returns (es: seq<Event>, t: State)
    requires s.batch == {} && Oldest(s, ids, size) && Candidate(s, id) && id !in ids
    ensures Run(size, s, es, t) && PassedOver(es, id) && Skips(es) == 0
    ensures Rounds(es) == k && Restarts(es) == k
    ensures t.batch == {} && t.evals == s.evals
    decreases k
  {
    if k == 0 {
      es, t := [], s;
    } else {
      var m := Next(size, s, List(ids));
      var n := Next(size, m, Restart);
      var round := [List(ids), Restart];
      assert round[1..] == [Restart] && [Restart][1..] == [];
      assert Run(size, m, [Restart], n) && Run(size, s, round, n);
      assert Candidates(n) == Candidates(s);
      var rest;
      rest, t := StarvedByRestarts(size, n, ids, id, k - 1);
      RunConcat(size, s, round, n, rest, t);
      es := round + rest;
    }
  }

  /** Any number of evaluations may be waiting for their polls. */
  lemma {:induction false} Crowd(size: nat, n: nat) returns (s: State)
    ensures Reachable(size, s) && s.creators == map[] && s.batch == {}
    ensures |s.evals| == n && forall i :: 0 <= i < n ==> s.evals[i].video == i
    ensures |Candidates(s)| == n
  {
    if n == 0 {
      s := Init();
      assert Run(size, s, [], s);
    } else {
      var m := Crowd(size, n - 1);
      s := OneMoreWaits(size, m);
      assert |Candidates(m) + {n - 1}| == n;
    }
  }

  /** A creation for a video without an evaluation that nothing disturbs. */
  lemma OneMoreWaits(size: nat, s: State) returns (t: State)
    requires Reachable(size, s) && s.creators == map[]
    requires forall i :: 0 <= i < |s.evals| ==> s.evals[i].video == i
    ensures Reachable(size, t) && t.creators == map[] && t.batch == s.batch
    ensures |t.evals| == |s.evals| + 1 && forall i :: 0 <= i < |t.evals| ==> t.evals[i].video == i
    ensures Candidates(t) == Candidates(s) + {|s.evals|}
  {
    hide Reachable, Run;
    var n := |s.evals|;
    assert Newest(s.evals, n) == None;
    ReachableNext(size, s, Check(0, n, false));
    var s1 := Next(size, s, Check(0, n, false));
    ReachableNext(size, s1, Insert(0));
    var s2 := Next(size, s1, Insert(0));
    ReachableNext(size, s2, Dispatched(0));
    t := Next(size, s2, Dispatched(0));
    assert t.creators == map[] && t.evals[..n] == s.evals;
    forall x ensures x in Candidates(t) <==> x in Candidates(s) + {n} {
      assert 0 <= x < n ==> t.evals[x] == s.evals[x];
    }
  }

  lemma {:induction false} InOrder(ids: set<EvalId>) returns (order: seq<EvalId>)
    ensures Lists(order, ids) && |order| == |ids|
    decreases ids
  {
    if ids == {} {
      order := [];
    } else {
      var x :| x in ids;
      var rest := InOrder(ids - {x});
      order := rest + [x];
      assert forall y :: y in order <==> y in rest || y == x;
    }
  }

  /** For every batch size there is a reachable state with one candidate more, and a batch that leaves it out. */
  lemma CrowdedOut(size: nat) returns (s: State, ids: set<EvalId>, id: EvalId)
    ensures Reachable(size, s) && s.batch == {} && Oldest(s, ids, size) && |ids| == size
    ensures Candidate(s, id) && id !in ids
  {
    s := Crowd(size, size + 1);
    ReachableInv(size, s);
    ids := BatchExists(s, size);
    hide Reachable, Inv;
    var rest := Candidates(s) - ids;
    assert ids <= Candidates(s);
    assert Candidates(s) == ids + rest;
    id :| id in rest;
  }

  /** So for every batch size and every number of rounds there are runs in which a candidate is passed over that
      often: in one every poll ends without a write, in the other every round is cut off by a restart. */
  lemma StarvationIsReached(size: nat, k: nat) returns (s: State, id: EvalId)
    ensures Reachable(size, s) && Candidate(s, id)
    ensures exists es, t :: Run(size, s, es, t) && PassedOver(es, id)
                            && Rounds(es) == k && Skips(es) == k * size && Restarts(es) == 0
    ensures exists es, t :: Run(size, s, es, t) && PassedOver(es, id)
                            && Rounds(es) == k && Restarts(es) == k && Skips(es) == 0
  {
    hide *;
    var ids;
    s, ids, id := CrowdedOut(size);
    var order := InOrder(ids);
    var es, t := StarvedWithoutWrites(size, s, ids, order, id, k);
    var fs, u := StarvedByRestarts(size, s, ids, id, k);
  }

  // ---- An evaluation without an owner

  predicate Orphaned(s: State, i: nat) {
    && i < |s.evals| && s.evals[i].status == Processing && !s.evals[i].hasJob
    && forall c :: c in s.creators && s.creators[c].Created? ==> s.creators[c].id != i
  }

  lemma OrphanStep(size: nat, s: State, e: Event, i: nat)
    requires Inv(size, s) && Enabled(size, s, e) && Orphaned(s, i)
    ensures Orphaned(Next(size, s, e), i) && Next(size, s, e).evals[i] == s.evals[i]
  {
    OwnerWrites(size, s, e, i);
  }

  lemma {:induction false} OrphanThrough(size: nat, s: State, es: seq<Event>, t: State, i: nat)
    requires Inv(size, s) && Run(size, s, es, t) && Orphaned(s, i)
    ensures Inv(size, t) && Orphaned(t, i) && t.evals[i] == s.evals[i]
    decreases |es|
  {
    if es != [] {
      StepKeeps(size, s, es[0]);
      OrphanStep(size, s, es[0], i);
      OrphanThrough(size, Next(size, s, es[0]), es[1..], t, i);
    }
  }

  ghost predicate CanFinish(size: nat, s: State, i: nat) {
    exists es, t :: Run(size, s, es, t) && i < |t.evals| && t.evals[i].status != Processing
  }

  lemma FinishesLater(size: nat, s: State, e: Event, i: nat)
    requires Enabled(size, s, e) && CanFinish(size, Next(size, s, e), i)
    ensures CanFinish(size, s, i)
  {
    var es, t :| Run(size, Next(size, s, e), es, t) && i < |t.evals| && t.evals[i].status != Processing;
    assert ([e] + es)[1..] == es;
    assert Run(size, s, [e] + es, t);
  }

  lemma FinishesNow(size: nat, s: State, i: nat)
    requires i < |s.evals| && s.evals[i].status != Processing
    ensures CanFinish(size, s, i)
  {
    assert Run(size, s, [], s);
  }

  lemma ListedFinishes(size: nat, s: State, i: nat)
    requires i in s.batch && i < |s.evals|
    ensures CanFinish(size, s, i)
  {
    FinishesNow(size, Next(size, s, Poll(i, JobCompleted)), i);
    FinishesLater(size, s, Poll(i, JobCompleted), i);
  }

  /** A candidate's turn comes: the batch is polled through, then the next one listed, until it is in it. */
  lemma {:induction false} CandidateFinishes(size: nat, s: State, i: nat)
    requires size > 0 && Inv(size, s) && Candidate(s, i)
    ensures CanFinish(size, s, i)
    decreases |Ahead(s, i)|, |s.batch|
  {
    if i in s.batch {
      ListedFinishes(size, s, i);
    } else if s.batch != {} {
      var x :| x in s.batch;
      var e := Poll(x, StillProcessing);
      StepPays(size, s, e, i);
      assert Next(size, s, e).batch == s.batch - {x};
      SmallerSet(s.batch - {x}, s.batch);
      CandidateFinishes(size, Next(size, s, e), i);
      FinishesLater(size, s, e, i);
    } else {
      var ids := BatchExists(s, size);
      var e := List(ids);
      StepKeeps(size, s, e);
      if i in ids {
        ListedFinishes(size, Next(size, s, e), i);
      } else {
        StepPays(size, s, e, i);
        CandidateFinishes(size, Next(size, s, e), i);
      }
      FinishesLater(size, s, e, i);
    }
  }

  lemma ProcessingFinishes(size: nat, s: State, i: nat)
    requires size > 0 && Inv(size, s) && i < |s.evals| && s.evals[i].status == Processing && !Orphaned(s, i)
    ensures CanFinish(size, s, i)
  {
    if s.evals[i].hasJob {
      CandidateFinishes(size, s, i);
    } else {
      var c :| c in s.creators && s.creators[c].Created? && s.creators[c].id == i;
      FinishesNow(size, Next(size, s, DispatchFails(c)), i);
      FinishesLater(size, s, DispatchFails(c), i);
    }
  }

  /** A processing evaluation is left processing by every run if and only if it has no job id and no creator. */
  lemma OrphanedIff(size: nat, s: State, i: nat)
    requires size > 0 && Reachable(size, s) && i < |s.evals| && s.evals[i].status == Processing
    ensures Orphaned(s, i) <==> !CanFinish(size, s, i)
  {
    ReachableInv(size, s);
    if Orphaned(s, i) {
      forall es, t | Run(size, s, es, t) ensures i < |t.evals| && t.evals[i].status == Processing {
        OrphanThrough(size, s, es, t, i);
      }
    } else {
      ProcessingFinishes(size, s, i);
    }
  }

  /** A creator that stops straight after its insert leaves such an evaluation. */
  lemma OrphanIsReached(size: nat, v: VideoId)
    ensures exists s :: Reachable(size, s) && Blocked(s, v)
  {
    assert Run(size, Init(), [], Init());
    ReachableNext(size, Init(), Check(0, v, false));
    var s1 := Next(size, Init(), Check(0, v, false));
    ReachableNext(size, s1, Insert(0));
    var s2 := Next(size, s1, Insert(0));
    ReachableNext(size, s2, CreatorDies(0));
    var s3 := Next(size, s2, CreatorDies(0));
    assert Newest(s3.evals, v) == Some(0);
    assert Orphaned(s3, 0);
  }

  /** The video's newest evaluation has no owner, and nobody is about to insert another. */
  predicate Blocked(s: State, v: VideoId) {
    var newest := Newest(s.evals, v);
    && newest.Some? && Orphaned(s, newest.value)
    && forall c :: c in s.creators && s.creators[c].Checked? ==> s.creators[c].video != v
  }

  lemma NewestStep(size: nat, s: State, e: Event, v: VideoId)
    requires Inv(size, s) && Enabled(size, s, e)
    ensures Newest(Next(size, s, e).evals, v) ==
              if e.Insert? && s.creators[e.c].video == v then Some(|s.evals|) else Newest(s.evals, v)
  {
    var t := Next(size, s, e);
    if e.Insert? {
      NewestAppended(s.evals, t.evals[|s.evals|], v);
    } else {
      NewestSame(s.evals, t.evals, v, |s.evals|);
    }
  }

  lemma BlockedStep(size: nat, s: State, e: Event, v: VideoId)
    requires Inv(size, s) && Enabled(size, s, e) && Blocked(s, v)
    ensures Blocked(Next(size, s, e), v) && Newest(Next(size, s, e).evals, v) == Newest(s.evals, v)
  {
    NewestStep(size, s, e, v);
    OrphanStep(size, s, e, Newest(s.evals, v).value);
    hide NewestBelow;
  }

  lemma {:induction false} BlockedThrough(size: nat, s: State, es: seq<Event>, t: State, v: VideoId)
    requires Inv(size, s) && Run(size, s, es, t) && Blocked(s, v)
    ensures Newest(t.evals, v) == Newest(s.evals, v)
    decreases |es|
  {
    if es != [] {
      StepKeeps(size, s, es[0]);
      BlockedStep(size, s, es[0], v);
      BlockedThrough(size, Next(size, s, es[0]), es[1..], t, v);
    }
  }

  /** Some run gives the video another evaluation. */
  ghost predicate CanGetAnother(size: nat, s: State, v: VideoId) {
    exists es, t :: Run(size, s, es, t) && Newest(t.evals, v) != Newest(s.evals, v)
  }

  lemma FreshCreator(creators: map<Creator, CreatorPc>) returns (c: Creator)
    ensures c !in creators
  {
    c := 0;
    var seen: set<Creator> := {};
    while c in creators
      invariant seen <= creators.Keys && forall d: Creator :: d in seen <==> d < c
      decreases creators.Keys - seen
    {
      seen := seen + {c};
      c := c + 1;
    }
  }

  /** A video whose newest evaluation is finished can be given another on demand. */
  lemma FinishedGetsAnother(size: nat, s: State, v: VideoId) returns (es: seq<Event>, t: State)
    requires Inv(size, s) && MayCreate(s, v, true)
    ensures Run(size, s, es, t) && Newest(t.evals, v) == Some(|s.evals|)
  {
    var c := FreshCreator(s.creators);
    var m := Next(size, s, Check(c, v, true));
    StepKeeps(size, s, Check(c, v, true));
    t := Next(size, m, Insert(c));
    NewestStep(size, m, Insert(c), v);
    es := [Check(c, v, true), Insert(c)];
    assert es[1..] == [Insert(c)];
    assert Run(size, m, [Insert(c)], t);
  }

  lemma CheckedGetsAnother(size: nat, s: State, c: Creator)
    requires Inv(size, s) && c in s.creators && s.creators[c].Checked?
    ensures CanGetAnother(size, s, s.creators[c].video)
  {
    NewestStep(size, s, Insert(c), s.creators[c].video);
    assert Run(size, s, [Insert(c)], Next(size, s, Insert(c)));
  }

  lemma UnblockedGetsAnother(size: nat, s: State, v: VideoId)
    requires size > 0 && Inv(size, s) && !Blocked(s, v)
    requires forall c :: c in s.creators && s.creators[c].Checked? ==> s.creators[c].video != v
    ensures CanGetAnother(size, s, v)
  {
    var newest := Newest(s.evals, v);
    if newest.Some? && s.evals[newest.value].status == Processing {
      ProcessingFinishes(size, s, newest.value);
      var es, t :| Run(size, s, es, t) && newest.value < |t.evals| && t.evals[newest.value].status != Processing;
      if Newest(t.evals, v) == newest {
        RunKeeps(size, s, es, t);
        var fs, u := FinishedGetsAnother(size, t, v);
        RunConcat(size, s, es, t, fs, u);
      }
    } else {
      var fs, u := FinishedGetsAnother(size, s, v);
    }
  }

  /** A video can never be given another evaluation, forced or not, if and only if its newest one has no owner
      and nobody is about to insert. */
  lemma BlockedIff(size: nat, s: State, v: VideoId)
    requires size > 0 && Reachable(size, s)
    ensures Blocked(s, v) <==> !CanGetAnother(size, s, v)
  {
    ReachableInv(size, s);
    if Blocked(s, v) {
      forall es, t | Run(size, s, es, t) ensures Newest(t.evals, v) == Newest(s.evals, v) {
        BlockedThrough(size, s, es, t, v);
      }
    } else if c :| c in s.creators && s.creators[c].Checked? && s.creators[c].video == v {
      CheckedGetsAnother(size, s, c);
    } else {
      UnblockedGetsAnother(size, s, v);
    }
  }
}

/**
 The AI module's writes as methods over its rows, and a polling round as the loop that it is.
 */
module AiService {
  import opened Wrappers
  import opened EvaluationStatus
  import opened AiPolling

  class Service {
    var now: Time
    var evals: seq<Eval>
    var videoAi: map<VideoId, AiStatus>

    /** The rows as a protocol state with no creation and no poll under way. */
    function View(): State
      reads this
    {
      State(now, evals, videoAi, map[], {})
    }

    constructor ()
      ensures View() == Init()
    {
      now, evals, videoAi := 0, [], map[];
    }

    method CreateAndMarkVideoProcessing(v: VideoId) returns (id: EvalId)
      modifies this
      ensures id == |old(evals)| && now == old(now) + 1
      ensures evals == old(evals) + [Eval(v, Processing, false, old(now))]
      ensures videoAi == old(videoAi)[v := AiProcessing]
    {
      id := |evals|;
      evals := evals + [Eval(v, Processing, false, now)];
      videoAi := videoAi[v := AiProcessing];
      now := now + 1;
    }

    method SetJobID(id: EvalId)
      requires id < |evals|
      modifies this
      ensures now == old(now) + 1 && videoAi == old(videoAi)
      ensures evals == old(evals)[id := old(evals)[id].(hasJob := true, updatedAt := old(now))]
    {
      evals := evals[id := evals[id].(hasJob := true, updatedAt := now)];
      now := now + 1;
    }

    /** Creation with its dispatch: nothing if the newest evaluation is processing, or finished and not
        forced; otherwise a new evaluation, with a job or, when the provider refuses, failed at once. It is the
        protocol's run of one creation that nothing disturbs. */
    method CreateForVideo(v: VideoId, force: bool, accepted: bool) returns (id: Option<EvalId>)
      modifies this
      ensures id == if Creatable(old(evals), v, force) then Some(|old(evals)|) else None
      ensures id.None? ==> View() == old(View()).(now := old(now) + 1)
      ensures id.Some? ==>
                && |evals| == |old(evals)| + 1 && evals[..|old(evals)|] == old(evals)
                && evals[id.value] == Eval(v, if accepted then Processing else Failed, accepted, old(now) + 2)
                && videoAi == old(videoAi)[v := if accepted then AiProcessing else AiFailed]
                && now == old(now) + 3
      ensures Run(0, old(View()), Creation(old(evals), v, force, accepted), View())
    {
      ghost var before := View();
      MayCreateIff(before, v, force);
      CreationRuns(before, v, force, accepted);
      hide Run, Creation, Creatable;
      var latest := Newest(evals, v);
      now := now + 1;
      if latest.Some? {
        if evals[latest.value].status == Processing {
          return None;
        }
        if !force {
          return None;
        }
      }
      var created := CreateAndMarkVideoProcessing(v);
      if accepted {
        SetJobID(created);
      } else {
        evals := evals[created := evals[created].(status := Failed, updatedAt := now)];
        videoAi := videoAi[v := AiFailed];
        now := now + 1;
      }
      assert evals == before.evals + [Eval(v, if accepted then Processing else Failed, accepted, before.now + 2)];
      id := Some(created);
    }

    /** What one poll writes, by the provider's answer; every other evaluation and video is left alone. */
    method PollEvaluation(id: EvalId, answer: Answer)
      requires id < |evals|
      modifies this
      ensures now == old(now) + 1 && |evals| == |old(evals)|
      ensures forall i :: 0 <= i < |evals| && i != id ==> evals[i] == old(evals)[i]
      ensures evals[id].video == old(evals)[id].video && evals[id].hasJob == old(evals)[id].hasJob
      ensures evals[id].updatedAt == old(now)
      ensures evals[id].status == match answer
              case StillProcessing => old(evals)[id].status case JobCompleted => Completed case JobFailed => Failed
      ensures videoAi == old(videoAi)[old(evals)[id].video := match answer
              case StillProcessing => AiProcessing case JobCompleted => AiCompleted case JobFailed => AiFailed]
      ensures View() == Polled(old(View()), id, answer).(now := old(now) + 1)
      ensures evals == old(evals)[id := Answered(old(evals)[id], answer, old(now))]
    {
      var v := evals[id].video;
      match answer {
        case StillProcessing =>
          evals := evals[id := evals[id].(updatedAt := now)];
          videoAi := videoAi[v := AiProcessing];
        case JobCompleted =>
          evals := evals[id := evals[id].(status := Completed, updatedAt := now)];
          videoAi := videoAi[v := AiCompleted];
        case JobFailed =>
          evals := evals[id := evals[id].(status := Failed, updatedAt := now)];
          videoAi := videoAi[v := AiFailed];
      }
      now := now + 1;
    }

    /** A round over a listed batch: every listed evaluation is written once, none other is, and whatever
        is still a candidate among them now stands behind every candidate that was not listed. */
    method PollOnce(batch: seq<EvalId>, answers: seq<Answer>)
      requires |answers| == |batch|
      requires forall i :: 0 <= i < |batch| ==> batch[i] < |evals|
      requires forall i, j :: 0 <= i < j < |batch| ==> batch[i] != batch[j]
      requires forall i :: 0 <= i < |evals| ==> evals[i].updatedAt < now
      modifies this
      ensures |evals| == |old(evals)| && now == old(now) + |batch|
      ensures forall i :: 0 <= i < |evals| && i !in batch ==> evals[i] == old(evals)[i]
      ensures forall k :: 0 <= k < |batch| ==>
                evals[batch[k]] == Answered(old(evals)[batch[k]], answers[k], old(now) + k)
      ensures forall x, y :: x in batch && 0 <= y < |evals| && y !in batch ==> evals[y].updatedAt < evals[x].updatedAt
    {
      ghost var start, rows := now, evals;
      for n := 0 to |batch|
        invariant |evals| == |rows| && now == start + n
        invariant forall i :: 0 <= i < |evals| && i !in batch[..n] ==> evals[i] == rows[i]
        invariant forall k :: 0 <= k < n ==> evals[batch[k]] == Answered(rows[batch[k]], answers[k], start + k)
      {
        hide Answered, Polled;
        assert batch[n] !in batch[..n];
        assert batch[..n + 1] == batch[..n] + [batch[n]];
        PollEvaluation(batch[n], answers[n]);
      }
      assert batch[..|batch|] == batch;
    }
  }

  /** The steps of one creation. */
  function Creation(evals: seq<Eval>, v: VideoId, force: bool, accepted: bool): seq<Event> {
    if !Creatable(evals, v, force) then [Check(0, v, force)]
    else [Check(0, v, force), Insert(0), if accepted then Dispatched(0) else DispatchFails(0)]
  }

  lemma ThreeSteps(s: State, a: Event, b: Event, c: Event)
    requires Enabled(0, s, a) && Enabled(0, Next(0, s, a), b) && Enabled(0, Next(0, Next(0, s, a), b), c)
    ensures Run(0, s, [a, b, c], Next(0, Next(0, Next(0, s, a), b), c))
  {
    hide Enabled, Next;
    var s1 := Next(0, s, a);
    var s2 := Next(0, s1, b);
    var s3 := Next(0, s2, c);
    assert [a, b, c][1..] == [b, c] && [b, c][1..] == [c] && [c][1..] == [];
    assert Run(0, s3, [], s3) && Run(0, s2, [c], s3) && Run(0, s1, [b, c], s3);
  }

  lemma InsertAndAnswer(s: State, v: VideoId, accepted: bool)
    requires s.creators == map[0 := Checked(v)] && s.batch == {}
    ensures
      var answer := if accepted then Dispatched(0) else DispatchFails(0);
      var status, ai := if accepted then Processing else Failed, if accepted then AiProcessing else AiFailed;
      && Enabled(0, s, Insert(0)) && Enabled(0, Next(0, s, Insert(0)), answer)
      && Next(0, Next(0, s, Insert(0)), answer) ==
           State(s.now + 2, s.evals + [Eval(v, status, accepted, s.now + 1)], s.videoAi[v := ai], map[], {})
  {
    var n, m := |s.evals|, Next(0, s, Insert(0));
    var t := Next(0, m, if accepted then Dispatched(0) else DispatchFails(0));
    assert m.evals[..n] == s.evals && t.creators == map[];
    assert t.evals == s.evals + [Eval(v, if accepted then Processing else Failed, accepted, s.now + 1)];
    assert t.videoAi == s.videoAi[v := if accepted then AiProcessing else AiFailed];
  }

  lemma CheckPasses(s: State, v: VideoId, force: bool)
    requires s.creators == map[] && Creatable(s.evals, v, force)
    ensures Enabled(0, s, Check(0, v, force))
    ensures Next(0, s, Check(0, v, force)) == s.(now := s.now + 1, creators := map[0 := Checked(v)])
  {
    hide Creatable, MayCreate;
    CheckAdmitsIff(0, s, 0, v, force);
    assert map[][0 := Checked(v)] == map[0 := Checked(v)];
  }

  /** What a creation leaves. */
  function AfterCreation(s: State, v: VideoId, force: bool, accepted: bool): State {
    if !Creatable(s.evals, v, force) then s.(now := s.now + 1)
    else
      State(s.now + 3, s.evals + [Eval(v, if accepted then Processing else Failed, accepted, s.now + 2)],
            s.videoAi[v := if accepted then AiProcessing else AiFailed], map[], {})
  }

  lemma AcceptedCreationRuns(s: State, v: VideoId, force: bool, accepted: bool)
    requires s.creators == map[] && s.batch == {} && Creatable(s.evals, v, force)
    ensures Run(0, s, [Check(0, v, force), Insert(0), if accepted then Dispatched(0) else DispatchFails(0)],
                AfterCreation(s, v, force, accepted))
  {
    hide Creatable, Next, Enabled, Run;
    CheckPasses(s, v, force);
    InsertAndAnswer(Next(0, s, Check(0, v, force)), v, accepted);
    ThreeSteps(s, Check(0, v, force), Insert(0), if accepted then Dispatched(0) else DispatchFails(0));
  }

  lemma RefusedCreationRuns(s: State, v: VideoId, force: bool, accepted: bool)
    requires s.creators == map[] && !Creatable(s.evals, v, force)
    ensures Run(0, s, [Check(0, v, force)], AfterCreation(s, v, force, accepted))
  {
    hide Creatable, Next, Run;
    CheckAdmitsIff(0, s, 0, v, force);
    OneStep(s, Check(0, v, force));
  }

  lemma CreationRuns(s: State, v: VideoId, force: bool, accepted: bool)
    requires s.creators == map[] && s.batch == {}
    ensures Run(0, s, Creation(s.evals, v, force, accepted), AfterCreation(s, v, force, accepted))
  {
    hide Creatable, AfterCreation, Run;
    if Creatable(s.evals, v, force) {
      AcceptedCreationRuns(s, v, force, accepted);
    } else {
      RefusedCreationRuns(s, v, force, accepted);
    }
  }

  lemma OneStep(s: State, e: Event)
    requires Enabled(0, s, e)
    ensures Run(0, s, [e], Next(0, s, e))
  {
    hide Enabled, Next;
    assert [e][1..] == [] && Run(0, Next(0, s, e), [], Next(0, s, e));
  }

  /** An evaluation after a poll. */
  function Answered(e: Eval, answer: Answer, at: Time): Eval {
    match answer
    case StillProcessing => e.(updatedAt := at)
    case JobCompleted => e.(status := Completed, updatedAt := at)
    case JobFailed => e.(status := Failed, updatedAt := at)
  }
}

/**
 The schedule of video deletions across whole runs of the service. A finished job whose record keeps a
 video says until when; the cleanup loop looks at the schedule alone. What keeps the two together is
 shown here, and when they come apart.
 */
module JobDeletion {
  import opened Wrappers
  import opened JobStore
  import opened JobPipeline

  predicate KeepsVideo(s: State, id: JobId) {
    Live(s.redis, s.now, id) && s.redis.jobs[id].value.videoExpireAt.Some?
  }

  /** The record says that the video is to be deleted, and nobody will. */
  ghost predicate Stranded(s: State, id: JobId) {
    KeepsVideo(s, id) && id !in s.redis.videoExpire && !Held(s, id)
  }

  /** Between the write of a record that keeps its video and the entry in the schedule. */
  ghost predicate Unbooked(s: State, id: JobId) {
    KeepsVideo(s, id) && id !in s.redis.videoExpire && Held(s, id)
  }

  ghost predicate CrashedUnbooked(cfg: Settings, s: State, es: seq<Event>, id: JobId)
    decreases |es|
  {
    && es != [] && Enabled(s, es[0])
    && ((es[0].Crash? && Unbooked(s, id)) || CrashedUnbooked(cfg, Next(cfg, s, es[0]), es[1..], id))
  }

  // ---- The invariant: only finished jobs keep videos, and until the time in the schedule

  ghost predicate Dated(s: State, id: JobId) {
    KeepsVideo(s, id) ==>
      && id in s.verdict
      && (id in s.redis.videoExpire ==> s.redis.jobs[id].value.videoExpireAt == Some(s.redis.videoExpire[id]))
  }

  ghost predicate Minds(s: State, p: Proc) {
    p in s.procs ==>
      var pc := s.procs[p];
      && (pc.read.Some? && pc.read.value.videoExpireAt.Some? ==> pc.id in s.verdict)
      && (Live(s.redis, s.now, pc.id) ==>
            && (pc.stage.Schedule? ==> s.redis.jobs[pc.id].value.videoExpireAt == Some(pc.stage.expireAt))
            && (pc.stage.ClearEntry? ==> s.redis.jobs[pc.id].value.videoExpireAt == None))
  }

  ghost predicate Booked(s: State) {
    && (forall id: JobId :: Dated(s, id))
    && (forall p: Proc :: Minds(s, p))
  }

  /** What is kept of one job: its record, its verdict, its entry in the schedule and who holds it. */
  ghost predicate SameJob(s: State, t: State, id: JobId) {
    && (Live(t.redis, t.now, id) ==> Live(s.redis, s.now, id))
    && (id in t.redis.jobs && id in s.redis.jobs ==> t.redis.jobs[id] == s.redis.jobs[id])
    && (id in t.redis.jobs <==> id in s.redis.jobs)
    && (id in t.verdict <==> id in s.verdict)
    && (id in t.redis.videoExpire <==> id in s.redis.videoExpire)
    && (id in s.redis.videoExpire ==> t.redis.videoExpire[id] == s.redis.videoExpire[id])
  }

  predicate IsWork(e: Event) { e.Get? || e.Set? || e.Act? }

  lemma OthersStay(cfg: Settings, s: State, e: Event, id: JobId)
    requires IsWork(e) && Enabled(s, e) && id != s.procs[e.p].id
    ensures SameJob(s, Next(cfg, s, e), id)
  {
  }

  /** A process that takes a step moves itself and no other. */
  lemma OthersWait(cfg: Settings, s: State, e: Event, q: Proc)
    requires IsWork(e) && Enabled(s, e) && q != e.p
    ensures q in Next(cfg, s, e).procs <==> q in s.procs
    ensures q in s.procs ==> Next(cfg, s, e).procs[q] == s.procs[q]
  {
  }

  /** What ownership gives the process that takes a step. */
  ghost predicate Owner(s: State, p: Proc) {
    && p in s.procs
    && (Late(s.procs[p].stage) <==> s.procs[p].id in s.verdict)
    && (s.procs[p].id in s.redis.videoExpire <==> p == Cleanup)
    && (p == Cleanup ==> s.procs[p].stage.ClearCache? || s.procs[p].stage.ClearEntry?)
    && (s.procs[p].read.Some? && Live(s.redis, s.now, s.procs[p].id) ==>
          s.redis.jobs[s.procs[p].id].value == s.procs[p].read.value)
  }

  lemma ProcessOwns(cfg: Settings, s: State, p: Proc)
    requires Inv(cfg, s) && p in s.procs
    ensures Owner(s, p)
  {
    hide Kept, Staged;
    assert Holds(s, p, s.procs[p].id);
  }

  /** The process that takes a step keeps record, schedule and itself in agreement, and leaves no job
      whose video would stay. */
  ghost predicate Settled(t: State, p: Proc, id: JobId) {
    && Dated(t, id) && Minds(t, p)
    && (p !in t.procs && KeepsVideo(t, id) ==> id in t.redis.videoExpire)
  }

  lemma ReadSettles(cfg: Settings, s: State, p: Proc)
    requires Owner(s, p) && Enabled(s, Get(p)) && Dated(s, s.procs[p].id) && Minds(s, p)
    ensures Settled(ReadStep(cfg, s, p), p, s.procs[p].id)
  {
  }

  lemma WriteSettles(cfg: Settings, s: State, p: Proc)
    requires Owner(s, p) && Enabled(s, Set(p)) && Dated(s, s.procs[p].id) && Minds(s, p)
    ensures Settled(WriteStep(cfg, s, p), p, s.procs[p].id)
  {
  }

  lemma ActSettles(cfg: Settings, s: State, p: Proc, outcome: Outcome)
    requires Owner(s, p) && Enabled(s, Act(p, outcome)) && Dated(s, s.procs[p].id) && Minds(s, p)
    ensures Settled(ActStep(cfg, s, p, outcome), p, s.procs[p].id)
  {
  }

  lemma WorkSettles(cfg: Settings, s: State, e: Event)
    requires Inv(cfg, s) && Booked(s) && Enabled(s, e) && IsWork(e)
    ensures Settled(Next(cfg, s, e), e.p, s.procs[e.p].id)
  {
    hide Inv, Owner, Settled, Minds, Dated;
    ProcessOwns(cfg, s, e.p);
    assert Dated(s, s.procs[e.p].id) && Minds(s, e.p);
    match e {
      case Get(p) => ReadSettles(cfg, s, p);
      case Set(p) => WriteSettles(cfg, s, p);
      case Act(p, outcome) => ActSettles(cfg, s, p, outcome);
    }
  }

  lemma WorkKeepsBooked(cfg: Settings, s: State, e: Event)
    requires Inv(cfg, s) && Booked(s) && Enabled(s, e) && IsWork(e)
    ensures Booked(Next(cfg, s, e))
  {
    var t, own := Next(cfg, s, e), s.procs[e.p].id;
    hide Inv, Next, Enabled, Settled;
    assert Settled(t, e.p, own) by { WorkSettles(cfg, s, e); }
    forall id: JobId ensures Dated(t, id) {
      WorkKeepsDated(cfg, s, e, id);
    }
    forall p: Proc ensures Minds(t, p) {
      WorkKeepsMinds(cfg, s, e, p);
    }
  }

  lemma WorkKeepsDated(cfg: Settings, s: State, e: Event, id: JobId)
    requires Inv(cfg, s) && Booked(s) && Enabled(s, e) && IsWork(e)
    ensures Dated(Next(cfg, s, e), id)
  {
    var own := s.procs[e.p].id;
    hide Next, Inv, Enabled;
    WorkSettles(cfg, s, e);
    if id != own {
      OthersStay(cfg, s, e, id);
      assert Dated(s, id);
    }
  }

  lemma OthersHoldOthers(cfg: Settings, s: State, p: Proc, q: Proc)
    requires Inv(cfg, s) && p in s.procs && q in s.procs && p != q
    ensures s.procs[p].id != s.procs[q].id
  {
    assert Holds(s, p, s.procs[p].id) && Holds(s, q, s.procs[q].id);
  }

  lemma WorkKeepsMinds(cfg: Settings, s: State, e: Event, p: Proc)
    requires Inv(cfg, s) && Booked(s) && Enabled(s, e) && IsWork(e)
    ensures Minds(Next(cfg, s, e), p)
  {
    var q := e.p;
    assert q in s.procs;
    hide Next, Inv, Enabled;
    WorkSettles(cfg, s, e);
    if p != q {
      OthersWait(cfg, s, e, p);
      if p in s.procs {
        OthersHoldOthers(cfg, s, p, q);
        OthersStay(cfg, s, e, s.procs[p].id);
        assert Minds(s, p);
      }
    }
  }

  // ---- The other events: a process takes up a job, a crash lets all go, and no record changes

  /** The job that a process takes up, if the event is of that kind. */
  function TakenUp(s: State, e: Event): Option<JobId>
    requires Enabled(s, e)
  {
    match e
    case Resume => Some(s.phase.todo[0].id)
    case Create(_, id) => Some(id)
    case Take(w) => Some(s.d.popped[w])
    case CleanNext => Some(s.phase.sweep[0])
    case _ => None
  }

  lemma RestStays(cfg: Settings, s: State, e: Event, id: JobId)
    requires Enabled(s, e) && !IsWork(e) && (e.Create? ==> id != e.id)
    ensures SameJob(s, Next(cfg, s, e), id)
  {
  }

  lemma NewKeepsNothing(cfg: Settings, s: State, c: nat, id: JobId)
    requires Enabled(s, Create(c, id))
    ensures !KeepsVideo(Next(cfg, s, Create(c, id)), id)
  {
  }

  /** Who is there after such an event was there before, or starts at a stage that has read nothing. */
  lemma RestStarts(cfg: Settings, s: State, e: Event, p: Proc)
    requires Enabled(s, e) && !IsWork(e) && p in Next(cfg, s, e).procs
    ensures
      var pc := Next(cfg, s, e).procs[p];
      || (p in s.procs && pc == s.procs[p] && !e.Crash?)
      || (p !in s.procs && TakenUp(s, e) == Some(pc.id) && pc.read.None? && !pc.stage.Schedule? && !pc.stage.ClearEntry?)
  {
  }

  lemma RestGoesOn(cfg: Settings, s: State, e: Event, p: Proc)
    requires Enabled(s, e) && !IsWork(e) && !e.Crash? && p in s.procs
    ensures p in Next(cfg, s, e).procs && Next(cfg, s, e).procs[p] == s.procs[p]
  {
  }

  /** A job that is taken up has no verdict, or is on the schedule. */
  lemma TakenUpIsAlive(cfg: Settings, s: State, e: Event)
    requires Inv(cfg, s) && Enabled(s, e) && TakenUp(s, e).Some?
    ensures TakenUp(s, e).value !in s.verdict || TakenUp(s, e).value in s.redis.videoExpire
    ensures e.Create? ==> !Held(s, e.id)
    ensures Held(Next(cfg, s, e), TakenUp(s, e).value)
  {
    match e {
      case Resume =>
        assert TodoOf(s)[0].id == s.phase.todo[0].id && Awaits(s, s.phase.todo[0].id);
        assert Holds(Next(cfg, s, e), Recovery, s.phase.todo[0].id);
      case Create(c, id) =>
        assert id !in s.verdict.Keys;
        assert Holds(Next(cfg, s, e), Creator(c), id);
      case Take(w) =>
        TakenFromDispatcher(s.d, w);
        assert Holds(Next(cfg, s, e), Worker(w), s.d.popped[w]);
      case CleanNext =>
        assert s.phase.sweep[0] in SweepOf(s);
        assert Holds(Next(cfg, s, e), Cleanup, s.phase.sweep[0]);
    }
  }

  lemma RestKeepsBooked(cfg: Settings, s: State, e: Event)
    requires Inv(cfg, s) && Booked(s) && Enabled(s, e) && !IsWork(e)
    ensures Booked(Next(cfg, s, e))
  {
    forall id: JobId ensures Dated(Next(cfg, s, e), id) {
      RestKeepsDated(cfg, s, e, id);
    }
    forall p: Proc ensures Minds(Next(cfg, s, e), p) {
      RestKeepsMinds(cfg, s, e, p);
    }
  }

  lemma RestKeepsDated(cfg: Settings, s: State, e: Event, id: JobId)
    requires Booked(s) && Enabled(s, e) && !IsWork(e)
    ensures Dated(Next(cfg, s, e), id)
  {
    hide Next, Enabled;
    assert Dated(s, id);
    if e.Create? && id == e.id {
      NewKeepsNothing(cfg, s, e.c, id);
    } else {
      RestStays(cfg, s, e, id);
    }
  }

  lemma RestKeepsMinds(cfg: Settings, s: State, e: Event, p: Proc)
    requires Inv(cfg, s) && Booked(s) && Enabled(s, e) && !IsWork(e)
    ensures Minds(Next(cfg, s, e), p)
  {
    var t := Next(cfg, s, e);
    assert e.Create? ==> !Held(s, e.id) by {
      if e.Create? { TakenUpIsAlive(cfg, s, e); }
    }
    hide Next, Enabled, Inv;
    if p in t.procs {
      RestStarts(cfg, s, e, p);
      if p in s.procs {
        assert Minds(s, p) && Holds(s, p, s.procs[p].id);
        RestStays(cfg, s, e, t.procs[p].id);
      }
    }
  }

  lemma StepKeepsBooked(cfg: Settings, s: State, e: Event)
    requires Inv(cfg, s) && Booked(s) && Enabled(s, e)
    ensures Booked(Next(cfg, s, e))
  {
    hide *;
    if IsWork(e) { WorkKeepsBooked(cfg, s, e); } else { RestKeepsBooked(cfg, s, e); }
  }

  // ---- What strands a job

  lemma WorkHolds(cfg: Settings, s: State, e: Event, id: JobId)
    requires Enabled(s, e) && IsWork(e) && id != s.procs[e.p].id
    ensures Next(cfg, s, e).now == s.now
    ensures Held(Next(cfg, s, e), id) <==> Held(s, id)
  {
    var t := Next(cfg, s, e);
    assert e.p in t.procs ==> t.procs[e.p].id == s.procs[e.p].id;
    assert t.now == s.now;
    hide Next, Enabled;
    forall q: Proc ensures Holds(t, q, id) <==> Holds(s, q, id) {
      if q != e.p { OthersWait(cfg, s, e, q); }
    }
  }

  lemma OwnIsNotStranded(cfg: Settings, s: State, e: Event)
    requires Inv(cfg, s) && Booked(s) && Enabled(s, e) && IsWork(e)
    ensures !Stranded(Next(cfg, s, e), s.procs[e.p].id) && !Stranded(s, s.procs[e.p].id)
  {
    var t, own := Next(cfg, s, e), s.procs[e.p].id;
    assert Holds(s, e.p, own);
    assert e.p in t.procs ==> Holds(t, e.p, own);
    hide Next, Enabled, Inv;
    WorkSettles(cfg, s, e);
  }

  lemma WorkStrandsNone(cfg: Settings, s: State, e: Event, id: JobId)
    requires Inv(cfg, s) && Booked(s) && Enabled(s, e) && IsWork(e)
    ensures Stranded(Next(cfg, s, e), id) ==> Stranded(s, id)
    ensures Stranded(s, id) && Live(Next(cfg, s, e).redis, Next(cfg, s, e).now, id) ==> Stranded(Next(cfg, s, e), id)
  {
    if id == s.procs[e.p].id {
      OwnIsNotStranded(cfg, s, e);
    } else {
      OthersStay(cfg, s, e, id);
      WorkHolds(cfg, s, e, id);
      hide Next, Enabled, Inv, Booked;
    }
  }

  lemma RestStrandsIff(cfg: Settings, s: State, e: Event, id: JobId)
    requires Inv(cfg, s) && Booked(s) && Enabled(s, e) && !IsWork(e)
    ensures
      Stranded(Next(cfg, s, e), id) <==>
        Live(Next(cfg, s, e).redis, Next(cfg, s, e).now, id) &&
        (Stranded(s, id) || (e.Crash? && Unbooked(s, id)))
  {
    var t := Next(cfg, s, e);
    assert Dated(s, id);
    if TakenUp(s, e).Some? {
      TakenUpIsAlive(cfg, s, e);
    }
    if e.Create? && id == e.id {
      NewKeepsNothing(cfg, s, e.c, id);
      assert id !in s.redis.jobs.Keys;
    } else {
      RestStays(cfg, s, e, id);
      RestHolds(cfg, s, e, id);
      hide Next, Enabled, Inv, TakenUp;
    }
  }

  lemma RestHolds(cfg: Settings, s: State, e: Event, id: JobId)
    requires Enabled(s, e) && !IsWork(e)
    ensures e.Crash? ==> !Held(Next(cfg, s, e), id)
    ensures !e.Crash? && Held(s, id) ==> Held(Next(cfg, s, e), id)
    ensures Held(Next(cfg, s, e), id) ==> Held(s, id) || TakenUp(s, e) == Some(id)
  {
    var t := Next(cfg, s, e);
    hide Next, Enabled;
    if Held(t, id) {
      var p :| Holds(t, p, id);
      RestStarts(cfg, s, e, p);
      assert p in s.procs ==> Holds(s, p, id);
    }
    if !e.Crash? && Held(s, id) {
      var p :| Holds(s, p, id);
      RestGoesOn(cfg, s, e, p);
      assert Holds(t, p, id);
    }
  }

  /** Which step strands a job, exactly: only a crash does, and only between a record and its entry. */
  lemma StepStrandsIff(cfg: Settings, s: State, e: Event, id: JobId)
    requires Inv(cfg, s) && Booked(s) && Enabled(s, e)
    ensures
      Stranded(Next(cfg, s, e), id) <==>
        Live(Next(cfg, s, e).redis, Next(cfg, s, e).now, id) &&
        (Stranded(s, id) || (e.Crash? && Unbooked(s, id)))
  {
    hide Inv, Booked, Next, Enabled;
    if IsWork(e) {
      WorkStrandsNone(cfg, s, e, id);
    } else {
      RestStrandsIff(cfg, s, e, id);
    }
  }

  /** A job that nobody will delete, its record there or expired. */
  ghost predicate Lost(s: State, id: JobId) {
    && id in s.verdict && id in s.redis.jobs && s.redis.jobs[id].value.videoExpireAt.Some?
    && id !in s.redis.videoExpire && !Held(s, id)
  }

  lemma LostStays(cfg: Settings, s: State, e: Event, id: JobId)
    requires Inv(cfg, s) && Enabled(s, e) && Lost(s, id)
    ensures Lost(Next(cfg, s, e), id)
    ensures Live(Next(cfg, s, e).redis, Next(cfg, s, e).now, id) ==> Live(s.redis, s.now, id)
  {
    var t := Next(cfg, s, e);
    if IsWork(e) {
      assert Holds(s, e.p, s.procs[e.p].id);
      OthersStay(cfg, s, e, id);
      WorkHolds(cfg, s, e, id);
      hide Next, Enabled, Inv;
    } else {
      if TakenUp(s, e).Some? {
        TakenUpIsAlive(cfg, s, e);
      }
      RestStays(cfg, s, e, id);
      RestHolds(cfg, s, e, id);
      hide Next, Enabled, Inv;
    }
  }

  lemma {:induction false} LostForGood(cfg: Settings, s: State, es: seq<Event>, t: State, id: JobId)
    requires Inv(cfg, s) && Run(cfg, s, es, t) && Lost(s, id)
    ensures Lost(t, id) && (Live(t.redis, t.now, id) ==> Live(s.redis, s.now, id))
    decreases |es|
  {
    hide Inv, Lost, Next, Enabled, Live;
    if es != [] {
      LostStays(cfg, s, es[0], id);
      StepKeeps(cfg, s, es[0]);
      LostForGood(cfg, Next(cfg, s, es[0]), es[1..], t, id);
    }
  }

  lemma StrandedIsLost(s: State, id: JobId)
    requires Booked(s)
    ensures Stranded(s, id) <==> Live(s.redis, s.now, id) && Lost(s, id)
  {
    assert Dated(s, id);
  }

  lemma UnbookedIsLost(cfg: Settings, s: State, id: JobId)
    requires Booked(s) && Unbooked(s, id)
    ensures Lost(Next(cfg, s, Crash), id)
  {
    assert Dated(s, id);
    assert forall q: Proc :: !Holds(Next(cfg, s, Crash), q, id);
  }

  lemma {:induction false} RunStrandsIff(cfg: Settings, s: State, es: seq<Event>, t: State, id: JobId)
    requires Inv(cfg, s) && Booked(s) && Run(cfg, s, es, t)
    ensures Booked(t)
    ensures Stranded(t, id) <==> Live(t.redis, t.now, id) && (Lost(s, id) || CrashedUnbooked(cfg, s, es, id))
    decreases |es|
  {
    hide Inv, Booked, Lost, Next, Enabled, Unbooked, Stranded, Live;
    if es == [] {
      StrandedIsLost(s, id);
    } else {
      var e, m := es[0], Next(cfg, s, es[0]);
      StepKeeps(cfg, s, e);
      StepKeepsBooked(cfg, s, e);
      RunStrandsIff(cfg, m, es[1..], t, id);
      if Lost(s, id) {
        LostStays(cfg, s, e, id);
      }
      if e.Crash? && Unbooked(s, id) {
        UnbookedIsLost(cfg, s, id);
      }
      if Lost(m, id) {
        LostForGood(cfg, m, es[1..], t, id);
        StrandedIsLost(m, id);
        StrandedIsLost(s, id);
        StepStrandsIff(cfg, s, e, id);
      }
    }
  }

  lemma InitBooked()
    ensures Booked(Init())
    ensures forall id: JobId :: !Lost(Init(), id)
  {
  }

  /** Over whole runs: a finished job's video that its record says is to be deleted, and that nobody will
      delete, was left by a crash between the write of the record and the entry in the schedule; and every
      such crash leaves one. */
  lemma StrandedIff(cfg: Settings, es: seq<Event>, s: State, id: JobId)
    requires Run(cfg, Init(), es, s)
    ensures Stranded(s, id) <==> Live(s.redis, s.now, id) && CrashedUnbooked(cfg, Init(), es, id)
  {
    InitInv(cfg);
    InitBooked();
    hide Inv, Booked, Lost, Next, Enabled, Unbooked, Stranded, Live, Init;
    RunStrandsIff(cfg, Init(), es, s, id);
  }

  /** Short of such a crash a kept video is on the schedule, at the time its record says, as soon as
      nobody holds the job; and whatever is on the schedule is there at the record's time. */
  lemma KeptVideoIsBooked(cfg: Settings, es: seq<Event>, s: State, id: JobId)
    requires Run(cfg, Init(), es, s) && KeepsVideo(s, id)
    requires !Held(s, id) && !CrashedUnbooked(cfg, Init(), es, id)
    ensures Terminal(s.redis.jobs[id].value.status)
    ensures id in s.redis.videoExpire
    ensures s.redis.jobs[id].value.videoExpireAt == Some(s.redis.videoExpire[id])
  {
    StrandedIff(cfg, es, s, id);
    InitInv(cfg);
    InitBooked();
    RunStrandsIff(cfg, Init(), es, s, id);
    RunKeeps(cfg, Init(), es, s);
    hide Next, Enabled, Init;
    assert Dated(s, id);
    assert Suits(s, id, s.redis.jobs[id].value.status);
  }

  // ---- Such a crash can come

  /** A first worker is at `stage` with job `id`, whose record is there and which is not on the schedule. */
  predicate At(s: State, id: JobId, stage: Stage) {
    && Worker(0) in s.procs && s.procs[Worker(0)] == Pc(id, stage, None) && s.d.adding.None?
    && Live(s.redis, s.now, id) && id !in s.redis.videoExpire
  }

  /** A whole update, read and write. */
  lemma Updated(cfg: Settings, s: State, id: JobId, stage: Stage) returns (t: State)
    requires Reachable(cfg, s) && At(s, id, stage) && Updates(stage) && After(cfg, stage).Some? && cfg.ttl > 0
    ensures Reachable(cfg, t) && At(t, id, After(cfg, stage).value)
    ensures id in t.redis.jobs && id in s.redis.jobs
    ensures t.redis.jobs[id].value == Patched(stage, s.redis.jobs[id].value).(updatedAt := s.now)
  {
    var p := Worker(0);
    var m := Next(cfg, s, Get(p));
    t := Next(cfg, m, Set(p));
    hide Reachable;
    ReachableNext(cfg, s, Get(p));
    ReachableNext(cfg, m, Set(p));
  }

  /** The worker's own work goes well. */
  lemma Worked(cfg: Settings, s: State, id: JobId, stage: Stage, file: Path, next: Stage) returns (t: State)
    requires Reachable(cfg, s) && At(s, id, stage)
    requires match stage
             case Download(_) => next == Preprocessing(file)
             case Preprocess(f) => next == Prepared(f)
             case Build(path) => next == Save(path, s.now + cfg.cacheTtl)
             case Save(path, expireAt) => next == Complete(path, expireAt)
             case _ => false
    ensures Reachable(cfg, t) && At(t, id, next)
  {
    t := Next(cfg, s, Act(Worker(0), Gives(file)));
    hide Reachable;
    ReachableNext(cfg, s, Act(Worker(0), Gives(file)));
  }

  /** The first job has been created and waits in the dispatcher. */
  predicate FirstWaits(s: State) {
    && s.procs == map[] && s.phase.Serving? && s.redis.videoExpire == map[]
    && s.d.adding.None? && s.d.queue == [0] && s.d.popped == map[]
    && Live(s.redis, s.now, 0) && s.redis.jobs[0].value.status == Queued && s.redis.jobs[0].value.cachePath == None
  }

  /** What a fresh service is like once it serves. */
  function Opened(): State { Init().(phase := Serving([])) }

  lemma ServiceOpens(cfg: Settings)
    ensures Reachable(cfg, Opened())
  {
    var s := Init();
    assert Run(cfg, s, [], s);
    hide Reachable, Run;
    ReachableNext(cfg, s, Scan([]));
    ReachableNext(cfg, Next(cfg, s, Scan([])), Open);
  }

  lemma FirstJobWaits(cfg: Settings) returns (s: State)
    requires cfg.ttl > 0
    ensures Reachable(cfg, s) && FirstWaits(s)
  {
    ServiceOpens(cfg);
    hide Reachable;
    ReachableNext(cfg, Opened(), Create(0, 0));
    var t := Next(cfg, Opened(), Create(0, 0));
    ReachableNext(cfg, t, Act(Creator(0), Fails));
    s := Next(cfg, t, Act(Creator(0), Fails));
  }

  lemma FirstJobStarts(cfg: Settings) returns (s: State)
    requires cfg.ttl > 0
    ensures Reachable(cfg, s) && At(s, 0, Start(None))
  {
    var s4 := FirstJobWaits(cfg);
    hide Reachable;
    ReachableNext(cfg, s4, Pop(0));
    var s5 := Next(cfg, s4, Pop(0));
    ReachableNext(cfg, s5, Take(0));
    var s6 := Next(cfg, s5, Take(0));
    ReachableNext(cfg, s6, Act(Worker(0), Fails));
    s := Next(cfg, s6, Act(Worker(0), Fails));
  }

  lemma FirstVideoIsReady(cfg: Settings) returns (s: State)
    requires cfg.ttl > 0 && !cfg.remoteUrl
    ensures Reachable(cfg, s) && At(s, 0, Prepared("video"))
  {
    s := FirstJobStarts(cfg);
    hide At, Reachable, Next, Enabled, Patched;
    s := Updated(cfg, s, 0, Start(None));
    s := Updated(cfg, s, 0, Downloading(None));
    s := Worked(cfg, s, 0, Download(None), "video", Preprocessing("video"));
    s := Updated(cfg, s, 0, Preprocessing("video"));
    s := Worked(cfg, s, 0, Preprocess("video"), "", Prepared("video"));
  }

  /** With videos downloaded to disk, a job that goes well and a crash after its last update leave its
      video where it is. */
  lemma VideoMayStay(cfg: Settings)
    requires cfg.ttl > 0 && !cfg.remoteUrl
    ensures exists s, id :: Reachable(cfg, s) && Stranded(s, id)
  {
    var s := FirstVideoIsReady(cfg);
    hide At, Reachable, Next, Enabled;
    s := Updated(cfg, s, 0, Prepared("video"));
    var expireAt := s.now + cfg.cacheTtl;
    s := Worked(cfg, s, 0, Build(Some("video")), "", Save(Some("video"), expireAt));
    s := Worked(cfg, s, 0, Save(Some("video"), expireAt), "", Complete(Some("video"), expireAt));
    s := Updated(cfg, s, 0, Complete(Some("video"), expireAt));
    CrashStrands(cfg, s, 0, Schedule(expireAt));
  }

  lemma CrashStrands(cfg: Settings, s: State, id: JobId, stage: Stage)
    requires Reachable(cfg, s) && At(s, id, stage)
    requires id in s.redis.jobs && s.redis.jobs[id].value.videoExpireAt.Some?
    ensures Reachable(cfg, Next(cfg, s, Crash)) && Stranded(Next(cfg, s, Crash), id)
  {
    hide Reachable;
    ReachableNext(cfg, s, Crash);
    assert forall q: Proc :: !Holds(Next(cfg, s, Crash), q, id);
  }
}

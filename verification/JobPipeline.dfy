/**
 The analysis service as a whole: request handlers, restart recovery, a worker pool and the cleanup
 loop, sharing one job store and one dispatcher, with a crash possible between any two steps.

 A store update is two steps, a read and a later write of the record read, with nothing locking the
 record in between. What makes that safe is ownership, proved here: at any moment at most one process
 is concerned with a job.
 */
module JobPipeline {
  import opened Wrappers
  import opened JobStore
  import D = Dispatcher

  datatype Settings = Settings(ttl: nat, remoteUrl: bool, cacheTtl: nat, failedTtl: nat)

  datatype Proc = Creator(c: nat) | Recovery | Worker(w: nat) | Cleanup

  /** Where a process stands with its job. `path` is the worker's local video path. */
  datatype Stage =
    | Enqueue
    | Reset
    | Fetch
    | Start(path: Option<Path>)
    | Linked(path: Option<Path>)
    | Downloading(path: Option<Path>)
    | Download(path: Option<Path>)
    | Preprocessing(file: Path)
    | Preprocess(file: Path)
    | Prepared(file: Path)
    | Build(path: Option<Path>)
    | Save(path: Option<Path>, expireAt: Time)
    | Complete(path: Option<Path>, expireAt: Time)
    | Fail(path: Option<Path>, failedAt: Time)
    | KeepFailed(file: Path, expireAt: Time)
    | ClearCache
    | Schedule(expireAt: Time)
    | ClearEntry

  /** `read` is what the process has read and not yet written back. */
  datatype Pc = Pc(id: JobId, stage: Stage, read: Option<Job>)

  datatype Listed = Listed(id: JobId, status: Status)

  datatype Phase = Starting | Recovering(todo: seq<Listed>) | Serving(sweep: seq<JobId>)

  /** `used` are the ids ever given out, `saved` the jobs whose result was ever stored, and `verdict` the
      outcome each worker reached: all three are history. */
  datatype State = State(
    now: Time,
    redis: Redis,
    d: D.State,
    phase: Phase,
    procs: map<Proc, Pc>,
    used: set<JobId>,
    saved: set<JobId>,
    verdict: map<JobId, Status>)

  datatype Outcome = Fails | Gives(file: Path)

  datatype Event =
    | Tick(later: Time)
    | Scan(ids: seq<JobId>)
    | Resume
    | Open
    | Create(c: nat, id: JobId)
    | Pop(w: nat)
    | Take(w: nat)
    | Get(p: Proc)
    | Set(p: Proc)
    | Act(p: Proc, outcome: Outcome)
    | Sweep(ids: seq<JobId>)
    | CleanNext
    | Crash

  predicate Updates(stage: Stage) {
    || stage.Reset? || stage.Start? || stage.Linked? || stage.Downloading? || stage.Preprocessing?
    || stage.Prepared? || stage.Complete? || stage.Fail? || stage.KeepFailed? || stage.ClearCache?
  }

  function Patched(stage: Stage, job: Job): Job
    requires Updates(stage)
  {
    match stage
    case Reset => job.(status := Queued, progress := 0)
    case Start(_) => job.(status := Processing, progress := 5)
    case Linked(_) => job.(progress := 55, cachePath := None)
    case Downloading(_) => job.(progress := 20)
    case Preprocessing(_) => job.(progress := 35)
    case Prepared(file) => job.(progress := 55, cachePath := Some(file))
    case Complete(path, expireAt) =>
      var done := job.(status := Completed, progress := 100);
      if path.Some? then done.(cachePath := path, videoExpireAt := Some(expireAt)) else done
    case Fail(_, _) => job.(status := Failed, progress := 100)
    case KeepFailed(file, expireAt) => job.(cachePath := Some(file), videoExpireAt := Some(expireAt))
    case ClearCache => job.(cachePath := None, videoExpireAt := None)
  }

  /** What follows an update, whether or not the record was still there. */
  function After(cfg: Settings, stage: Stage): Option<Stage>
    requires Updates(stage)
  {
    match stage
    case Reset => Some(Enqueue)
    case Start(path) => Some(if cfg.remoteUrl then Linked(path) else Downloading(path))
    case Linked(path) => Some(Build(path))
    case Downloading(path) => Some(Download(path))
    case Preprocessing(file) => Some(Preprocess(file))
    case Prepared(file) => Some(Build(Some(file)))
    case Complete(path, expireAt) => if path.Some? then Some(Schedule(expireAt)) else None
    case Fail(path, failedAt) =>
      if path.None? then None
      else if cfg.failedTtl > 0 then Some(KeepFailed(path.value, failedAt + cfg.failedTtl))
      else Some(ClearCache)
    case KeepFailed(_, expireAt) => Some(Schedule(expireAt))
    case ClearCache => Some(ClearEntry)
  }

  function Init(): State {
    State(0, Empty(), D.Init(), Starting, map[], {}, {}, map[])
  }

  predicate Idle(s: State, p: Proc) { p !in s.procs }

  predicate Enabled(s: State, e: Event) {
    match e
    case Tick(later) => s.now < later
    case Scan(ids) =>
      s.phase.Starting? && (forall i, j :: 0 <= i < j < |ids| ==> ids[i] != ids[j]) && ByAge(s.redis, ids) &&
      (forall id :: id in ids ==> id in ActiveIds(s.redis, s.now) && Recoverable(s.redis, s.now, id)) &&
      (forall id :: id in ActiveIds(s.redis, s.now) && Recoverable(s.redis, s.now, id) ==> id in ids)
    case Resume => s.phase.Recovering? && s.phase.todo != [] && Idle(s, Recovery)
    case Open => s.phase.Recovering? && s.phase.todo == [] && Idle(s, Recovery)
    case Create(c, id) => s.phase.Serving? && Idle(s, Creator(c)) && id !in s.used
    case Pop(w) => Idle(s, Worker(w)) && D.Enabled(s.d, D.Pop(w))
    case Take(w) => Idle(s, Worker(w)) && D.Enabled(s.d, D.Discard(w))
    case Get(p) => p in s.procs && Updates(s.procs[p].stage) && s.procs[p].read.None?
    case Set(p) => p in s.procs && Updates(s.procs[p].stage) && s.procs[p].read.Some?
    case Act(p, outcome) =>
      && p in s.procs && s.procs[p].read.None?
      && (!Updates(s.procs[p].stage) || (s.procs[p].stage.Downloading? && outcome.Fails?))
      && s.d.adding.None?
    case Sweep(ids) =>
      s.phase == Serving([]) && Idle(s, Cleanup) && |ids| <= SWEEP_LIMIT &&
      (forall i, j :: 0 <= i < j < |ids| ==> ids[i] != ids[j]) && (forall id :: id in ids ==> Due(s.redis, s.now, id)) &&
      (|ids| < SWEEP_LIMIT ==> forall id :: id in s.redis.videoExpire && Due(s.redis, s.now, id) ==> id in ids)
    case CleanNext => s.phase.Serving? && s.phase.sweep != [] && Idle(s, Cleanup)
    case Crash => true
  }

  function EnqueueOn(d: D.State, id: JobId): D.State
    requires d.adding.None?
  {
    if id in d.enqueued then d else D.Next(D.Next(d, D.Add(id)), D.Put)
  }

  function Move(s: State, p: Proc, next: Option<Stage>): map<Proc, Pc>
    requires p in s.procs
  {
    if next.Some? then s.procs[p := Pc(s.procs[p].id, next.value, None)] else s.procs - {p}
  }

  function Verdict(s: State, pc: Pc): map<JobId, Status> {
    match pc.stage
    case Complete(_, _) => s.verdict[pc.id := Completed]
    case Fail(_, _) => s.verdict[pc.id := Failed]
    case _ => s.verdict
  }

  function ReadStep(cfg: Settings, s: State, p: Proc): State
    requires p in s.procs && Updates(s.procs[p].stage)
  {
    var pc := s.procs[p];
    var job := JobStore.Get(s.redis, s.now, pc.id);
    if job.Some? then s.(procs := s.procs[p := pc.(read := job)])
    else s.(procs := Move(s, p, After(cfg, pc.stage)), verdict := Verdict(s, pc))
  }

  function WriteStep(cfg: Settings, s: State, p: Proc): State
    requires p in s.procs && Updates(s.procs[p].stage) && s.procs[p].read.Some?
  {
    var pc := s.procs[p];
    var job := Patched(pc.stage, pc.read.value).(updatedAt := s.now);
    s.(redis := Put(s.redis, cfg.ttl, s.now, pc.id, job),
       procs := Move(s, p, After(cfg, pc.stage)),
       verdict := Verdict(s, pc))
  }

  function ActStep(cfg: Settings, s: State, p: Proc, outcome: Outcome): State
    requires Enabled(s, Act(p, outcome))
  {
    var pc := s.procs[p];
    match pc.stage
    case Enqueue => s.(d := EnqueueOn(s.d, pc.id), procs := Move(s, p, None))
    case Fetch =>
      var job := JobStore.Get(s.redis, s.now, pc.id);
      s.(procs := Move(s, p, if job.None? || Terminal(job.value.status) then None else Some(Start(job.value.cachePath))))
    case Downloading(path) => s.(procs := Move(s, p, Some(Fail(path, s.now))))
    case Download(path) =>
      s.(procs := Move(s, p, Some(if outcome.Gives? then Preprocessing(outcome.file) else Fail(path, s.now))))
    case Preprocess(file) =>
      s.(procs := Move(s, p, Some(if outcome.Gives? then Prepared(file) else Fail(Some(file), s.now))))
    case Build(path) =>
      s.(procs := Move(s, p, Some(if outcome.Gives? then Save(path, s.now + cfg.cacheTtl) else Fail(path, s.now))))
    case Save(path, expireAt) =>
      s.(redis := s.redis.(results := s.redis.results[pc.id := s.now + cfg.ttl]),
         saved := s.saved + {pc.id},
         procs := Move(s, p, Some(Complete(path, expireAt))))
    case Schedule(expireAt) =>
      s.(redis := s.redis.(videoExpire := s.redis.videoExpire[pc.id := expireAt]), procs := Move(s, p, None))
    case ClearEntry =>
      s.(redis := s.redis.(videoExpire := s.redis.videoExpire - {pc.id}), procs := Move(s, p, None))
    case _ => s
  }

  function Listing(r: Redis, ids: seq<JobId>): seq<Listed>
    requires forall id :: id in ids ==> id in r.jobs
  {
    seq(|ids|, i requires 0 <= i < |ids| => Listed(ids[i], r.jobs[ids[i]].value.status))
  }

  function Next(cfg: Settings, s: State, e: Event): State
    requires Enabled(s, e)
  {
    match e
    case Tick(later) => s.(now := later)
    case Scan(ids) => s.(phase := Recovering(Listing(s.redis, ids)))
    case Resume =>
      var head := s.phase.todo[0];
      s.(phase := Recovering(s.phase.todo[1..]),
         procs := s.procs[Recovery := Pc(head.id, if head.status == Processing then Reset else Enqueue, None)])
    case Open => s.(phase := Serving([]))
    case Create(c, id) =>
      s.(redis := Put(s.redis, cfg.ttl, s.now, id, NewJob(s.now)),
         used := s.used + {id},
         procs := s.procs[Creator(c) := Pc(id, Enqueue, None)])
    case Pop(w) => s.(d := D.Next(s.d, D.Pop(w)))
    case Take(w) =>
      s.(d := D.Next(s.d, D.Discard(w)), procs := s.procs[Worker(w) := Pc(s.d.popped[w], Fetch, None)])
    case Get(p) => ReadStep(cfg, s, p)
    case Set(p) => WriteStep(cfg, s, p)
    case Act(p, outcome) => ActStep(cfg, s, p, outcome)
    case Sweep(ids) => s.(phase := Serving(ids))
    case CleanNext =>
      s.(phase := Serving(s.phase.sweep[1..]),
         procs := s.procs[Cleanup := Pc(s.phase.sweep[0], ClearCache, None)])
    case Crash => s.(d := D.Init(), phase := Starting, procs := map[])
  }

  predicate Run(cfg: Settings, s: State, es: seq<Event>, t: State)
    decreases |es|
  {
    if es == [] then s == t else Enabled(s, es[0]) && Run(cfg, Next(cfg, s, es[0]), es[1..], t)
  }

  // ---- Who owns a job

  predicate Holds(s: State, p: Proc, id: JobId) { p in s.procs && s.procs[p].id == id }

  function TodoOf(s: State): seq<Listed> { if s.phase.Recovering? then s.phase.todo else [] }

  function SweepOf(s: State): seq<JobId> { if s.phase.Serving? then s.phase.sweep else [] }

  predicate Awaits(s: State, id: JobId) {
    exists i :: 0 <= i < |TodoOf(s)| && TodoOf(s)[i].id == id
  }

  /** The last stages of a worker and the whole of a cleanup: the verdict on the job has been reached. */
  predicate Late(stage: Stage) {
    stage.KeepFailed? || stage.ClearCache? || stage.Schedule? || stage.ClearEntry?
  }

  ghost predicate Held(s: State, id: JobId) { exists p :: Holds(s, p, id) }

  /** No two processes hold one job; a job that waits in the dispatcher or for recovery is held by none;
      a job whose video awaits deletion waits nowhere and is held by the cleanup loop at most. */
  ghost predicate Exclusive(s: State) {
    && (forall p, q, id :: Holds(s, p, id) && Holds(s, q, id) ==> p == q)
    && (forall p, id :: Holds(s, p, id) ==> id !in s.d.enqueued && !Awaits(s, id))
    && (forall i, j :: 0 <= i < j < |TodoOf(s)| ==> TodoOf(s)[i].id != TodoOf(s)[j].id)
    && (forall id :: Awaits(s, id) ==> id !in s.d.enqueued)
    && (forall id :: id in s.redis.videoExpire ==>
          id !in s.d.enqueued && !Awaits(s, id) && forall p :: Holds(s, p, id) ==> p == Cleanup)
    && (forall id :: Holds(s, Cleanup, id) || id in SweepOf(s) ==> id in s.redis.videoExpire)
    && (forall i, j :: 0 <= i < j < |SweepOf(s)| ==> SweepOf(s)[i] != SweepOf(s)[j])
    && (forall id :: id in SweepOf(s) ==> !Holds(s, Cleanup, id))
  }

  /** Ids come from `used`, and each phase of the service's life runs only its own processes. */
  ghost predicate Staged(s: State) {
    && D.Inv(s.d) && s.d.adding.None?
    && s.d.enqueued <= s.used && s.redis.jobs.Keys <= s.used
    && s.redis.videoExpire.Keys <= s.used && s.verdict.Keys <= s.used
    && (forall p, id :: Holds(s, p, id) ==> id in s.used)
    && (forall id :: Awaits(s, id) ==> id in s.used)
    && (s.phase.Starting? ==> s.procs == map[] && s.d.enqueued == {})
    && (s.phase.Serving? ==> Idle(s, Recovery))
    && (s.phase.Recovering? ==> Idle(s, Cleanup))
  }

  /** A process that has the verdict before it holds an unfinished job, one that has it behind it a
      finished one. */
  ghost predicate Judged(s: State) {
    && (forall id :: id in s.d.enqueued || Awaits(s, id) ==> id !in s.verdict)
    && (forall p :: p in s.procs ==> (Late(s.procs[p].stage) <==> s.procs[p].id in s.verdict))
    && (forall id :: id in s.redis.videoExpire ==> id in s.verdict)
    && (forall id :: id in s.verdict ==> s.verdict[id] == Failed || (s.verdict[id] == Completed && id in s.saved))
    && (forall p :: p in s.procs && s.procs[p].stage.Complete? ==> s.procs[p].id in s.saved)
    && (forall p :: p in s.procs && p == Cleanup ==> s.procs[p].stage.ClearCache? || s.procs[p].stage.ClearEntry?)
  }

  predicate Suits(s: State, id: JobId, st: Status) {
    if id in s.verdict then st == s.verdict[id] else !Terminal(st)
  }

  /** What has been read and not yet written back is still the record, if there is a record. */
  ghost predicate Current(s: State) {
    && (forall id :: Live(s.redis, s.now, id) ==> Suits(s, id, s.redis.jobs[id].value.status))
    && (forall p :: p in s.procs && s.procs[p].read.Some? ==>
          && Updates(s.procs[p].stage)
          && Suits(s, s.procs[p].id, s.procs[p].read.value.status)
          && (Live(s.redis, s.now, s.procs[p].id) ==> s.redis.jobs[s.procs[p].id].value == s.procs[p].read.value))
  }

  ghost predicate Kept(cfg: Settings, s: State) {
    && Indexed(s.redis, s.now) && Bounded(s.redis, cfg.ttl, s.now)
    && (!s.phase.Starting? ==> forall id :: Recoverable(s.redis, s.now, id) ==>
          id in s.d.enqueued || Awaits(s, id) || Held(s, id))
  }

  ghost predicate Inv(cfg: Settings, s: State) {
    Exclusive(s) && Staged(s) && Judged(s) && Current(s) && Kept(cfg, s)
  }

  // ---- One lemma an event: what each step keeps

  /** Stepping from one stage to another, or letting the job go, upsets nobody else's ownership. */
  lemma MoveKeepsExclusive(s: State, t: State, p: Proc, next: Option<Stage>)
    requires Exclusive(s) && p in s.procs
    requires t.procs == Move(s, p, next) && t.d == s.d && t.phase == s.phase
    requires t.redis.videoExpire == s.redis.videoExpire
    ensures Exclusive(t)
    ensures forall q: Proc, id: JobId :: Holds(t, q, id) ==> Holds(s, q, id)
    ensures forall q: Proc, id: JobId :: Holds(s, q, id) ==> Holds(t, q, id) || (q == p && next.None?)
    ensures forall id: JobId :: Awaits(t, id) <==> Awaits(s, id)
  {
    assert TodoOf(t) == TodoOf(s) && SweepOf(t) == SweepOf(s);
    assert forall q: Proc, id: JobId :: Holds(t, q, id) ==> Holds(s, q, id);
  }

  lemma MoveKeepsStaged(s: State, t: State, p: Proc, next: Option<Stage>)
    requires Exclusive(s) && Staged(s) && p in s.procs
    requires t.procs == Move(s, p, next) && t.d == s.d && t.phase == s.phase && t.used == s.used
    requires t.redis.videoExpire == s.redis.videoExpire
    requires t.redis.jobs.Keys <= s.redis.jobs.Keys + {s.procs[p].id}
    requires t.verdict.Keys <= s.verdict.Keys + {s.procs[p].id}
    ensures Staged(t)
  {
    MoveKeepsExclusive(s, t, p, next);
    assert Holds(s, p, s.procs[p].id);
  }

  lemma MoveKeepsJudged(s: State, t: State, p: Proc, next: Option<Stage>)
    requires Exclusive(s) && Judged(s) && p in s.procs
    requires t.procs == Move(s, p, next) && t.d == s.d && t.phase == s.phase
    requires t.redis.videoExpire == s.redis.videoExpire && s.saved <= t.saved
    requires t.verdict == s.verdict || t.verdict == Verdict(s, s.procs[p])
    requires next.Some? ==> (Late(next.value) <==> s.procs[p].id in t.verdict)
    requires next.Some? && next.value.Complete? ==> s.procs[p].id in t.saved
    requires next.Some? && p == Cleanup ==> next.value.ClearEntry?
    ensures Judged(t)
  {
    MoveKeepsExclusive(s, t, p, next);
    assert Holds(s, p, s.procs[p].id);
    forall q | q in t.procs ensures Late(t.procs[q].stage) <==> t.procs[q].id in t.verdict {
      assert Holds(t, q, t.procs[q].id);
    }
  }

  /** What a write to one record, or none, leaves of the agreement between records and verdicts. */
  lemma MoveKeepsCurrent(s: State, t: State, p: Proc, next: Option<Stage>)
    requires Exclusive(s) && Current(s) && p in s.procs
    requires t.procs == Move(s, p, next) && t.now == s.now
    requires t.verdict == s.verdict || t.verdict == Verdict(s, s.procs[p])
    requires forall id :: id != s.procs[p].id && Live(t.redis, t.now, id) ==>
               Live(s.redis, s.now, id) && t.redis.jobs[id].value == s.redis.jobs[id].value
    requires Live(t.redis, t.now, s.procs[p].id) ==>
               Suits(t, s.procs[p].id, t.redis.jobs[s.procs[p].id].value.status)
    ensures Current(t)
  {
    assert Holds(s, p, s.procs[p].id);
    forall q | q in t.procs && t.procs[q].read.Some?
      ensures Updates(t.procs[q].stage)
      ensures Suits(t, t.procs[q].id, t.procs[q].read.value.status)
      ensures Live(t.redis, t.now, t.procs[q].id) ==> t.redis.jobs[t.procs[q].id].value == t.procs[q].read.value
    {
      assert q != p && Holds(s, q, s.procs[q].id);
    }
    forall id | Live(t.redis, t.now, id) ensures Suits(t, id, t.redis.jobs[id].value.status) {
    }
  }

  lemma MoveKeepsKept(cfg: Settings, s: State, t: State, p: Proc, next: Option<Stage>)
    requires Exclusive(s) && Kept(cfg, s) && p in s.procs
    requires t.procs == Move(s, p, next) && t.d == s.d && t.phase == s.phase && t.now == s.now
    requires t.redis.videoExpire == s.redis.videoExpire
    requires Indexed(t.redis, t.now) && Bounded(t.redis, cfg.ttl, t.now)
    requires forall id :: id != s.procs[p].id && Live(t.redis, t.now, id) ==>
               Live(s.redis, s.now, id) && t.redis.jobs[id].value == s.redis.jobs[id].value
    requires next.None? ==> !Recoverable(t.redis, t.now, s.procs[p].id)
    ensures Kept(cfg, t)
  {
    MoveKeepsExclusive(s, t, p, next);
    if !t.phase.Starting? {
      forall id | Recoverable(t.redis, t.now, id)
        ensures id in t.d.enqueued || Awaits(t, id) || Held(t, id)
      {
        if id == s.procs[p].id {
          assert Holds(t, p, id);
        } else {
          assert Recoverable(s.redis, s.now, id);
          if Held(s, id) {
            var q :| Holds(s, q, id);
            assert Holds(t, q, id);
          }
        }
      }
    }
  }

  /** A step in which process `p` moves to `next`, touching no record but its own job's. */
  ghost predicate Moves(cfg: Settings, s: State, t: State, p: Proc, next: Option<Stage>) {
    && p in s.procs && t.procs == Move(s, p, next)
    && t.d == s.d && t.phase == s.phase && t.now == s.now && t.used == s.used && s.saved <= t.saved
    && t.redis.videoExpire == s.redis.videoExpire
    && t.redis.jobs.Keys <= s.redis.jobs.Keys + {s.procs[p].id}
    && (t.verdict == s.verdict || t.verdict == Verdict(s, s.procs[p]))
    && Indexed(t.redis, t.now) && Bounded(t.redis, cfg.ttl, t.now)
    && (forall id :: id != s.procs[p].id && Live(t.redis, t.now, id) ==>
          Live(s.redis, s.now, id) && t.redis.jobs[id].value == s.redis.jobs[id].value)
    && (Live(t.redis, t.now, s.procs[p].id) ==> Suits(t, s.procs[p].id, t.redis.jobs[s.procs[p].id].value.status))
    && (next.None? ==> !Recoverable(t.redis, t.now, s.procs[p].id))
    && (next.Some? ==> (Late(next.value) <==> s.procs[p].id in t.verdict))
    && (next.Some? && next.value.Complete? ==> s.procs[p].id in t.saved)
    && (next.Some? && p == Cleanup ==> next.value.ClearEntry?)
  }

  lemma MoveKeeps(cfg: Settings, s: State, t: State, p: Proc, next: Option<Stage>)
    requires Inv(cfg, s) && Moves(cfg, s, t, p, next)
    ensures Inv(cfg, t)
  {
    MoveKeepsExclusive(s, t, p, next);
    MoveKeepsStaged(s, t, p, next);
    MoveKeepsJudged(s, t, p, next);
    MoveKeepsCurrent(s, t, p, next);
    MoveKeepsKept(cfg, s, t, p, next);
  }

  /** A read that finds nothing: the process goes on as if it had written. */
  lemma GoneMoves(cfg: Settings, s: State, p: Proc)
    requires Judged(s) && Current(s) && Kept(cfg, s) && Enabled(s, Get(p))
    requires !Live(s.redis, s.now, s.procs[p].id)
    ensures Moves(cfg, s, ReadStep(cfg, s, p), p, After(cfg, s.procs[p].stage))
  {
  }

  lemma WriteSuits(cfg: Settings, s: State, p: Proc)
    requires Judged(s) && Current(s) && Enabled(s, Set(p))
    ensures
      var pc, t, next := s.procs[p], WriteStep(cfg, s, p), After(cfg, s.procs[p].stage);
      && Suits(t, pc.id, Patched(pc.stage, pc.read.value).status)
      && (next.Some? ==> (Late(next.value) <==> pc.id in t.verdict) && !next.value.Complete?)
      && (next.None? ==> Terminal(Patched(pc.stage, pc.read.value).status))
  {
  }

  lemma WriteMoves(cfg: Settings, s: State, p: Proc)
    requires Judged(s) && Current(s) && Indexed(s.redis, s.now) && Bounded(s.redis, cfg.ttl, s.now)
    requires Enabled(s, Set(p))
    ensures Moves(cfg, s, WriteStep(cfg, s, p), p, After(cfg, s.procs[p].stage))
  {
    var pc := s.procs[p];
    WriteSuits(cfg, s, p);
    PutKeepsIndex(s.redis, cfg.ttl, s.now, pc.id, Patched(pc.stage, pc.read.value).(updatedAt := s.now));
  }

  function NextStage(t: State, p: Proc): Option<Stage> {
    if p in t.procs then Some(t.procs[p].stage) else None
  }

  lemma FetchMoves(cfg: Settings, s: State, p: Proc, outcome: Outcome)
    requires Judged(s) && Current(s) && Kept(cfg, s) && Enabled(s, Act(p, outcome)) && s.procs[p].stage.Fetch?
    ensures Moves(cfg, s, ActStep(cfg, s, p, outcome), p, NextStage(ActStep(cfg, s, p, outcome), p))
  {
  }

  lemma SaveMoves(cfg: Settings, s: State, p: Proc, outcome: Outcome)
    requires Judged(s) && Current(s) && Kept(cfg, s) && Enabled(s, Act(p, outcome)) && s.procs[p].stage.Save?
    ensures Moves(cfg, s, ActStep(cfg, s, p, outcome), p, NextStage(ActStep(cfg, s, p, outcome), p))
  {
    var t := ActStep(cfg, s, p, outcome);
    assert forall id :: Live(t.redis, t.now, id) <==> Live(s.redis, s.now, id);
  }

  /** The worker's own work between updates: nothing shared changes. */
  lemma WorkMoves(cfg: Settings, s: State, p: Proc, outcome: Outcome)
    requires Judged(s) && Current(s) && Kept(cfg, s) && Enabled(s, Act(p, outcome))
    requires s.procs[p].stage.Downloading? || s.procs[p].stage.Download? || s.procs[p].stage.Preprocess? || s.procs[p].stage.Build?
    ensures Moves(cfg, s, ActStep(cfg, s, p, outcome), p, NextStage(ActStep(cfg, s, p, outcome), p))
  {
  }

  /** A read that finds the record: only the reader's own counter changes. */
  lemma SnapshotKeeps(cfg: Settings, s: State, p: Proc)
    requires Inv(cfg, s) && Enabled(s, Get(p))
    requires Live(s.redis, s.now, s.procs[p].id)
    ensures Inv(cfg, ReadStep(cfg, s, p))
  {
    var t := ReadStep(cfg, s, p);
    SnapshotKeepsOwners(s, t, p, s.redis.jobs[s.procs[p].id].value);
    assert Kept(cfg, t);
  }

  lemma SnapshotKeepsExclusive(s: State, t: State, p: Proc, read: Option<Job>)
    requires Exclusive(s) && p in s.procs && t == s.(procs := s.procs[p := s.procs[p].(read := read)])
    ensures Exclusive(t)
    ensures forall q: Proc, id: JobId :: Holds(t, q, id) <==> Holds(s, q, id)
    ensures forall id: JobId :: Held(s, id) ==> Held(t, id)
    ensures forall id: JobId :: Awaits(t, id) <==> Awaits(s, id)
  {
    assert TodoOf(t) == TodoOf(s) && SweepOf(t) == SweepOf(s);
    assert forall q: Proc, id: JobId :: Holds(t, q, id) <==> Holds(s, q, id);
  }

  lemma SnapshotKeepsStaged(s: State, t: State, p: Proc, read: Option<Job>)
    requires Exclusive(s) && Staged(s) && p in s.procs && t == s.(procs := s.procs[p := s.procs[p].(read := read)])
    ensures Staged(t)
  {
    SnapshotKeepsExclusive(s, t, p, read);
    hide Exclusive, Holds, Awaits, D.Inv;
  }

  lemma SnapshotKeepsJudged(s: State, t: State, p: Proc, read: Option<Job>)
    requires Exclusive(s) && Judged(s) && p in s.procs && t == s.(procs := s.procs[p := s.procs[p].(read := read)])
    ensures Judged(t)
  {
    SnapshotKeepsExclusive(s, t, p, read);
    hide Exclusive, Holds, Awaits;
  }

  lemma SnapshotKeepsOwners(s: State, t: State, p: Proc, job: Job)
    requires Exclusive(s) && Staged(s) && Judged(s) && Current(s)
    requires p in s.procs && Updates(s.procs[p].stage)
    requires Live(s.redis, s.now, s.procs[p].id) && s.redis.jobs[s.procs[p].id].value == job
    requires t == s.(procs := s.procs[p := s.procs[p].(read := Some(job))])
    ensures Exclusive(t) && Staged(t) && Judged(t) && Current(t)
    ensures forall id: JobId :: Held(s, id) ==> Held(t, id)
    ensures forall id: JobId :: Awaits(t, id) <==> Awaits(s, id)
  {
    SnapshotKeepsExclusive(s, t, p, Some(job));
    SnapshotKeepsStaged(s, t, p, Some(job));
    SnapshotKeepsJudged(s, t, p, Some(job));
    SnapshotKeepsCurrent(s, t, p, job);
    hide Exclusive, Staged, Judged, Current, Holds, Held, Awaits;
  }

  lemma SnapshotKeepsCurrent(s: State, t: State, p: Proc, job: Job)
    requires Current(s) && p in s.procs && Updates(s.procs[p].stage)
    requires Live(s.redis, s.now, s.procs[p].id) && s.redis.jobs[s.procs[p].id].value == job
    requires t == s.(procs := s.procs[p := s.procs[p].(read := Some(job))])
    ensures Current(t)
  {
    assert forall id: JobId, st: Status :: Suits(t, id, st) <==> Suits(s, id, st);
  }

  lemma EnqueueKeeps(cfg: Settings, s: State, p: Proc, outcome: Outcome)
    requires Inv(cfg, s) && Enabled(s, Act(p, outcome)) && s.procs[p].stage.Enqueue?
    ensures Inv(cfg, ActStep(cfg, s, p, outcome))
  {
    var t := ActStep(cfg, s, p, outcome);
    var id := s.procs[p].id;
    assert Holds(s, p, id);
    assert id !in s.d.enqueued;
    D.StepKeeps(s.d, D.Add(id));
    D.StepKeeps(D.Next(s.d, D.Add(id)), D.Put);
    assert t.d.enqueued == s.d.enqueued + {id};
    EnqueueKeepsOwners(s, t, p);
    assert Kept(cfg, t) by {
      forall k | Recoverable(t.redis, t.now, k) && !t.phase.Starting?
        ensures k in t.d.enqueued || Awaits(t, k) || Held(t, k)
      {
        if k != id && Held(s, k) {
          var q :| Holds(s, q, k);
          assert Holds(t, q, k);
        }
      }
    }
  }

  ghost predicate Enqueues(s: State, t: State, p: Proc) {
    && p in s.procs && s.procs[p].stage.Enqueue?
    && D.Inv(t.d) && t.d.adding.None? && t.d.enqueued == s.d.enqueued + {s.procs[p].id}
    && t == s.(d := t.d, procs := s.procs - {p})
  }

  lemma EnqueueKeepsExclusive(s: State, t: State, p: Proc)
    requires Exclusive(s) && Judged(s) && Enqueues(s, t, p)
    ensures Exclusive(t)
    ensures forall id: JobId :: Awaits(t, id) <==> Awaits(s, id)
    ensures forall q: Proc, id: JobId :: Holds(t, q, id) ==> Holds(s, q, id) && q != p
  {
    assert TodoOf(t) == TodoOf(s) && SweepOf(t) == SweepOf(s);
    assert Holds(s, p, s.procs[p].id) && p != Cleanup;
    assert forall q: Proc, id: JobId :: Holds(t, q, id) ==> Holds(s, q, id) && q != p;
  }

  lemma EnqueueKeepsOwners(s: State, t: State, p: Proc)
    requires Exclusive(s) && Staged(s) && Judged(s) && Current(s) && Enqueues(s, t, p)
    ensures Exclusive(t) && Staged(t) && Judged(t) && Current(t)
    ensures forall id: JobId :: Awaits(t, id) <==> Awaits(s, id)
  {
    EnqueueKeepsExclusive(s, t, p);
    assert Holds(s, p, s.procs[p].id);
  }

  /** A process past the verdict lets its job go, having put it on or taken it off the schedule. */
  ghost predicate Releases(s: State, t: State, p: Proc) {
    && p in s.procs && Late(s.procs[p].stage)
    && t == s.(redis := t.redis, procs := s.procs - {p})
    && t.redis == s.redis.(videoExpire := t.redis.videoExpire)
    && (t.redis.videoExpire.Keys == s.redis.videoExpire.Keys - {s.procs[p].id} ||
        (p != Cleanup && t.redis.videoExpire.Keys == s.redis.videoExpire.Keys + {s.procs[p].id}))
  }

  lemma LastStageReleases(cfg: Settings, s: State, p: Proc, outcome: Outcome)
    requires Judged(s) && Enabled(s, Act(p, outcome))
    requires s.procs[p].stage.Schedule? || s.procs[p].stage.ClearEntry?
    ensures Releases(s, ActStep(cfg, s, p, outcome), p)
  {
  }

  lemma ReleaseKeepsExclusive(s: State, t: State, p: Proc)
    requires Exclusive(s) && Releases(s, t, p)
    ensures Exclusive(t)
    ensures forall id: JobId :: Awaits(t, id) <==> Awaits(s, id)
    ensures forall q: Proc, id: JobId :: Holds(t, q, id) <==> Holds(s, q, id) && q != p
  {
    assert TodoOf(t) == TodoOf(s) && SweepOf(t) == SweepOf(s);
    assert Holds(s, p, s.procs[p].id);
    assert forall q: Proc, id: JobId :: Holds(t, q, id) <==> Holds(s, q, id) && q != p;
    assert forall id :: id in t.redis.videoExpire <==> id in t.redis.videoExpire.Keys;
    assert forall id :: id in s.redis.videoExpire <==> id in s.redis.videoExpire.Keys;
  }

  lemma ReleaseKeepsOwners(s: State, t: State, p: Proc)
    requires Exclusive(s) && Staged(s) && Judged(s) && Current(s) && Releases(s, t, p)
    ensures Exclusive(t) && Staged(t) && Judged(t) && Current(t)
    ensures forall id: JobId :: Awaits(t, id) <==> Awaits(s, id)
    ensures forall q: Proc, id: JobId :: Holds(t, q, id) <==> Holds(s, q, id) && q != p
  {
    ReleaseKeepsExclusive(s, t, p);
    assert Holds(s, p, s.procs[p].id);
    assert forall id :: id in t.redis.videoExpire <==> id in t.redis.videoExpire.Keys;
    assert forall id :: id in s.redis.videoExpire <==> id in s.redis.videoExpire.Keys;
  }

  lemma ReleaseKeeps(cfg: Settings, s: State, t: State, p: Proc)
    requires Inv(cfg, s) && Releases(s, t, p)
    ensures Inv(cfg, t)
  {
    ReleaseKeepsOwners(s, t, p);
    forall k | Recoverable(t.redis, t.now, k) && !t.phase.Starting?
      ensures k in t.d.enqueued || Awaits(t, k) || Held(t, k)
    {
      assert Recoverable(s.redis, s.now, k);
      if Held(s, k) {
        var q :| Holds(s, q, k);
        assert q != p && Holds(t, q, k);
      }
    }
  }

  lemma ActKeeps(cfg: Settings, s: State, p: Proc, outcome: Outcome)
    requires Inv(cfg, s) && Enabled(s, Act(p, outcome))
    ensures Inv(cfg, Next(cfg, s, Act(p, outcome)))
  {
    hide Exclusive, Staged, Judged, Current, Kept, D.Inv;
    var t := ActStep(cfg, s, p, outcome);
    var stage := s.procs[p].stage;
    var ends := stage.Enqueue? || stage.Schedule? || stage.ClearEntry?;
    match stage {
      case Enqueue => EnqueueKeeps(cfg, s, p, outcome);
      case Schedule(_) => LastStageReleases(cfg, s, p, outcome); ReleaseKeeps(cfg, s, t, p);
      case ClearEntry => LastStageReleases(cfg, s, p, outcome); ReleaseKeeps(cfg, s, t, p);
      case Fetch => FetchMoves(cfg, s, p, outcome);
      case Save(_, _) => SaveMoves(cfg, s, p, outcome);
      case _ => WorkMoves(cfg, s, p, outcome);
    }
    if !ends {
      MoveKeeps(cfg, s, t, p, NextStage(t, p));
    }
  }

  lemma GetKeeps(cfg: Settings, s: State, p: Proc)
    requires Inv(cfg, s) && Enabled(s, Get(p))
    ensures Inv(cfg, Next(cfg, s, Get(p)))
  {
    if Live(s.redis, s.now, s.procs[p].id) {
      SnapshotKeeps(cfg, s, p);
    } else {
      GoneMoves(cfg, s, p);
      MoveKeeps(cfg, s, ReadStep(cfg, s, p), p, After(cfg, s.procs[p].stage));
    }
  }

  lemma SetKeeps(cfg: Settings, s: State, p: Proc)
    requires Inv(cfg, s) && Enabled(s, Set(p))
    ensures Inv(cfg, Next(cfg, s, Set(p)))
  {
    WriteMoves(cfg, s, p);
    MoveKeeps(cfg, s, WriteStep(cfg, s, p), p, After(cfg, s.procs[p].stage));
  }

  lemma TickKeeps(cfg: Settings, s: State, later: Time)
    requires Inv(cfg, s) && s.now < later
    ensures Inv(cfg, s.(now := later))
  {
    var t := s.(now := later);
    TimeKeepsIndex(s.redis, cfg.ttl, s.now, later);
    assert TodoOf(t) == TodoOf(s) && SweepOf(t) == SweepOf(s);
    assert forall q: Proc, id: JobId :: Holds(t, q, id) <==> Holds(s, q, id);
    assert forall id: JobId :: Awaits(t, id) <==> Awaits(s, id);
    assert forall id: JobId :: Live(t.redis, t.now, id) ==> Live(s.redis, s.now, id);
    assert Exclusive(t) && Staged(t) && Judged(t);
    assert Current(t);
    assert forall id: JobId :: Held(s, id) ==> Held(t, id);
  }

  lemma NothingWaits()
    ensures D.Inv(D.Init()) && D.Init().enqueued == {} && D.Init().adding.None?
  {
    assert forall id: JobId :: !D.Pending(D.Init(), id);
  }

  lemma CrashKeeps(cfg: Settings, s: State)
    requires Inv(cfg, s)
    ensures Inv(cfg, Next(cfg, s, Crash))
  {
    hide D.Inv, D.Init;
    var t := Next(cfg, s, Crash);
    NothingWaits();
    assert TodoOf(t) == [] && SweepOf(t) == [];
    assert forall q: Proc, id: JobId :: !Holds(t, q, id);
  }

  lemma ScanKeeps(cfg: Settings, s: State, ids: seq<JobId>)
    requires Inv(cfg, s) && Enabled(s, Scan(ids))
    ensures Inv(cfg, Next(cfg, s, Scan(ids)))
  {
    var t := Next(cfg, s, Scan(ids));
    assert IsScan(s.redis, s.now, ids);
    ScanIsExact(s.redis, s.now, ids);
    assert |TodoOf(t)| == |ids| && forall i :: 0 <= i < |ids| ==> TodoOf(t)[i].id == ids[i];
    assert SweepOf(t) == [];
    assert forall id: JobId :: Awaits(t, id) ==> id in ids;
    assert forall q: Proc, id: JobId :: !Holds(t, q, id);
    forall id | Recoverable(t.redis, t.now, id) ensures Awaits(t, id) {
      assert id in ids;
      var i :| 0 <= i < |ids| && ids[i] == id;
      assert TodoOf(t)[i].id == id;
    }
  }

  lemma ResumeKeeps(cfg: Settings, s: State)
    requires Inv(cfg, s) && Enabled(s, Resume)
    ensures Inv(cfg, Next(cfg, s, Resume))
  {
    var t := Next(cfg, s, Resume);
    var head := TodoOf(s)[0];
    assert TodoOf(t) == TodoOf(s)[1..] && SweepOf(t) == [] && SweepOf(s) == [];
    assert Awaits(s, head.id);
    forall id: JobId ensures Awaits(t, id) <==> Awaits(s, id) && id != head.id {
      if Awaits(t, id) {
        var i :| 0 <= i < |TodoOf(t)| && TodoOf(t)[i].id == id;
        assert TodoOf(s)[i + 1].id == id;
      }
      if Awaits(s, id) && id != head.id {
        var i :| 0 <= i < |TodoOf(s)| && TodoOf(s)[i].id == id;
        assert TodoOf(t)[i - 1].id == id;
      }
    }
    AcquireKeeps(cfg, s, t, Recovery, head.id);
  }

  /** A process takes up a job that nobody held: from the recovery list, the dispatcher, the schedule, or
      one that did not exist. */
  ghost predicate Acquires(s: State, t: State, p: Proc, id: JobId) {
    && p !in s.procs && !Held(s, id) && p in t.procs
    && t.procs == s.procs[p := t.procs[p]] && t.procs[p].id == id && t.procs[p].read.None?
    && id !in t.d.enqueued && !Awaits(t, id) && t.d.enqueued <= s.d.enqueued
    && (forall k: JobId :: Awaits(t, k) ==> Awaits(s, k))
    && (forall k: JobId :: k in s.d.enqueued && k != id ==> k in t.d.enqueued)
    && (forall k: JobId :: Awaits(s, k) && k != id ==> Awaits(t, k))
    && (forall i, j :: 0 <= i < j < |TodoOf(t)| ==> TodoOf(t)[i].id != TodoOf(t)[j].id)
    && (forall k :: k in SweepOf(t) ==> k in SweepOf(s) && k != id)
    && (forall i, j :: 0 <= i < j < |SweepOf(t)| ==> SweepOf(t)[i] != SweepOf(t)[j])
    && t.redis.videoExpire == s.redis.videoExpire
    && (id in s.redis.videoExpire <==> p == Cleanup)
    && t.now == s.now && t.saved == s.saved && t.verdict == s.verdict
    && (Late(t.procs[p].stage) <==> id in s.verdict)
    && !t.procs[p].stage.Complete? && (p == Cleanup ==> t.procs[p].stage.ClearCache?)
    && D.Inv(t.d) && t.d.adding.None?
    && t.used == s.used + {id} && t.redis.jobs.Keys <= s.redis.jobs.Keys + {id}
    && !t.phase.Starting? && (t.phase.Serving? <==> s.phase.Serving?)
    && (p == Recovery ==> t.phase.Recovering?) && (p == Cleanup ==> t.phase.Serving?)
  }

  lemma AcquireKeepsExclusive(s: State, t: State, p: Proc, id: JobId)
    requires Exclusive(s) && Acquires(s, t, p, id)
    ensures Exclusive(t)
    ensures forall q: Proc, k: JobId :: Holds(t, q, k) <==> Holds(s, q, k) || (q == p && k == id)
  {
    assert forall q: Proc, k: JobId :: Holds(t, q, k) <==> Holds(s, q, k) || (q == p && k == id);
    assert forall q: Proc, k: JobId :: Holds(s, q, k) ==> k != id by {
      forall q: Proc, k: JobId | Holds(s, q, k) ensures k != id {
        assert Held(s, k);
      }
    }
  }

  lemma AcquireKeepsJudged(s: State, t: State, p: Proc, id: JobId)
    requires Exclusive(s) && Judged(s) && Acquires(s, t, p, id)
    ensures Judged(t)
  {
  }

  lemma AcquireKeepsStaged(s: State, t: State, p: Proc, id: JobId)
    requires Exclusive(s) && Staged(s) && Acquires(s, t, p, id) && !s.phase.Starting?
    ensures Staged(t)
  {
    AcquireKeepsExclusive(s, t, p, id);
  }

  lemma AcquireKeepsCurrent(s: State, t: State, p: Proc, id: JobId)
    requires Current(s) && Acquires(s, t, p, id)
    requires forall k :: k != id && Live(t.redis, t.now, k) ==>
               Live(s.redis, s.now, k) && t.redis.jobs[k].value == s.redis.jobs[k].value
    requires Live(t.redis, t.now, id) ==> Suits(t, id, t.redis.jobs[id].value.status)
    ensures Current(t)
  {
    forall q | q in t.procs && t.procs[q].read.Some?
      ensures q in s.procs && s.procs[q] == t.procs[q] && t.procs[q].id != id
    {
      assert q != p && Holds(s, q, s.procs[q].id);
    }
    assert forall k, st: Status :: Suits(t, k, st) <==> Suits(s, k, st);
  }

  lemma AcquireKeepsOwned(s: State, t: State, p: Proc, id: JobId, k: JobId)
    requires Exclusive(s) && Acquires(s, t, p, id)
    requires k in s.d.enqueued || Awaits(s, k) || Held(s, k) || k == id
    ensures k in t.d.enqueued || Awaits(t, k) || Held(t, k)
  {
    AcquireKeepsExclusive(s, t, p, id);
    if k == id {
      assert Holds(t, p, id);
    } else if Held(s, k) {
      var q :| Holds(s, q, k);
      assert Holds(t, q, k);
    }
  }

  lemma AcquireKeeps(cfg: Settings, s: State, t: State, p: Proc, id: JobId)
    requires Inv(cfg, s) && Acquires(s, t, p, id) && !s.phase.Starting?
    requires forall k :: k != id && Live(t.redis, t.now, k) ==>
               Live(s.redis, s.now, k) && t.redis.jobs[k].value == s.redis.jobs[k].value
    requires Live(t.redis, t.now, id) ==> Suits(t, id, t.redis.jobs[id].value.status)
    requires Indexed(t.redis, t.now) && Bounded(t.redis, cfg.ttl, t.now)
    ensures Inv(cfg, t)
  {
    AcquireKeepsExclusive(s, t, p, id);
    AcquireKeepsJudged(s, t, p, id);
    AcquireKeepsStaged(s, t, p, id);
    AcquireKeepsCurrent(s, t, p, id);
    forall k | Recoverable(t.redis, t.now, k)
      ensures k in t.d.enqueued || Awaits(t, k) || Held(t, k)
    {
      AcquireKeepsOwned(s, t, p, id, k);
    }
  }

  lemma CreateAcquires(cfg: Settings, s: State, c: nat, id: JobId)
    requires Inv(cfg, s) && Enabled(s, Create(c, id))
    ensures Acquires(s, Next(cfg, s, Create(c, id)), Creator(c), id)
  {
    hide Judged, Current, Kept;
    var t := Next(cfg, s, Create(c, id));
    assert TodoOf(t) == [] && TodoOf(s) == [] && SweepOf(t) == SweepOf(s);
    assert id !in s.redis.videoExpire.Keys;
    assert forall k :: k in SweepOf(s) ==> k in s.redis.videoExpire.Keys;
  }

  lemma CreateKeeps(cfg: Settings, s: State, c: nat, id: JobId)
    requires Inv(cfg, s) && Enabled(s, Create(c, id))
    ensures Inv(cfg, Next(cfg, s, Create(c, id)))
  {
    hide Exclusive, Acquires, Current, Indexed, Bounded;
    PutKeepsIndex(s.redis, cfg.ttl, s.now, id, NewJob(s.now));
    CreateAcquires(cfg, s, c, id);
    AcquireKeeps(cfg, s, Next(cfg, s, Create(c, id)), Creator(c), id);
  }

  lemma TakenFromDispatcher(d: D.State, w: nat)
    requires D.Inv(d) && D.Enabled(d, D.Discard(w))
    ensures D.Inv(D.Next(d, D.Discard(w))) && d.popped[w] in d.enqueued
    ensures D.Next(d, D.Discard(w)).enqueued == d.enqueued - {d.popped[w]} && D.Next(d, D.Discard(w)).adding.None?
  {
    assert d.popped[w] in d.popped.Values;
    assert D.Pending(d, d.popped[w]);
    D.StepKeeps(d, D.Discard(w));
  }

  lemma TakeAcquires(s: State, w: nat, d: D.State)
    requires Exclusive(s) && Judged(s) && Staged(s) && Idle(s, Worker(w)) && w in s.d.popped
    requires s.d.popped[w] in s.d.enqueued && D.Inv(d) && d.adding.None? && d.enqueued == s.d.enqueued - {s.d.popped[w]}
    ensures
      var id := s.d.popped[w];
      Acquires(s, s.(d := d, procs := s.procs[Worker(w) := Pc(id, Fetch, None)]), Worker(w), id)
  {
    var id := s.d.popped[w];
    var t := s.(d := d, procs := s.procs[Worker(w) := Pc(id, Fetch, None)]);
    assert TodoOf(t) == TodoOf(s) && SweepOf(t) == SweepOf(s);
    assert !Held(s, id);
  }

  lemma TakeKeeps(cfg: Settings, s: State, w: nat)
    requires Inv(cfg, s) && Enabled(s, Take(w))
    ensures Inv(cfg, Next(cfg, s, Take(w)))
  {
    TakenFromDispatcher(s.d, w);
    TakeAcquires(s, w, D.Next(s.d, D.Discard(w)));
    AcquireKeeps(cfg, s, Next(cfg, s, Take(w)), Worker(w), s.d.popped[w]);
  }

  lemma CleanNextAcquires(cfg: Settings, s: State)
    requires Inv(cfg, s) && Enabled(s, CleanNext)
    ensures Acquires(s, Next(cfg, s, CleanNext), Cleanup, SweepOf(s)[0])
  {
    hide Current, Kept;
    var t := Next(cfg, s, CleanNext);
    var id := SweepOf(s)[0];
    assert TodoOf(t) == [] && TodoOf(s) == [] && SweepOf(t) == SweepOf(s)[1..];
    assert id in SweepOf(s);
    assert forall q: Proc :: Holds(s, q, id) ==> q == Cleanup;
  }

  lemma CleanNextKeeps(cfg: Settings, s: State)
    requires Inv(cfg, s) && Enabled(s, CleanNext)
    ensures Inv(cfg, Next(cfg, s, CleanNext))
  {
    hide Exclusive, Staged, Judged, Acquires, Indexed, Bounded;
    CleanNextAcquires(cfg, s);
    AcquireKeeps(cfg, s, Next(cfg, s, CleanNext), Cleanup, SweepOf(s)[0]);
  }

  /** Steps that leave every process and record where it is. */
  ghost predicate Quiet(s: State, t: State) {
    && t == s.(d := t.d, phase := t.phase)
    && D.Inv(t.d) && t.d.adding.None? && t.d.enqueued == s.d.enqueued
    && !s.phase.Starting? && TodoOf(t) == TodoOf(s)
    && (s.phase.Recovering? && t.phase.Serving? ==> Idle(s, Recovery))
    && (t.phase.Serving? <== s.phase.Serving?) && !t.phase.Starting?
    && (forall id :: id in SweepOf(t) ==> id in s.redis.videoExpire && !Holds(s, Cleanup, id))
    && (forall i, j :: 0 <= i < j < |SweepOf(t)| ==> SweepOf(t)[i] != SweepOf(t)[j])
  }

  lemma PhaseIsQuiet(cfg: Settings, s: State, e: Event)
    requires Inv(cfg, s) && Enabled(s, e) && (e.Open? || e.Sweep?)
    ensures Quiet(s, Next(cfg, s, e))
  {
    assert TodoOf(Next(cfg, s, e)) == TodoOf(s);
  }

  lemma QuietKeeps(cfg: Settings, s: State, t: State)
    requires Inv(cfg, s) && Quiet(s, t)
    ensures Inv(cfg, t)
  {
    assert forall q: Proc, id: JobId :: Holds(t, q, id) <==> Holds(s, q, id);
    assert forall id: JobId :: Awaits(t, id) <==> Awaits(s, id);
    assert forall id: JobId :: Held(s, id) ==> Held(t, id);
    assert Exclusive(t);
    assert Staged(t);
    assert Judged(t) && Current(t);
  }

  lemma PopKeeps(cfg: Settings, s: State, w: nat)
    requires Inv(cfg, s) && Enabled(s, Pop(w))
    ensures Inv(cfg, Next(cfg, s, Pop(w)))
  {
    D.StepKeeps(s.d, D.Pop(w));
    var t := Next(cfg, s, Pop(w));
    assert D.Pending(s.d, s.d.queue[0]);
    assert TodoOf(t) == TodoOf(s) && SweepOf(t) == SweepOf(s);
    QuietKeeps(cfg, s, t);
  }

  lemma StepKeeps(cfg: Settings, s: State, e: Event)
    requires Inv(cfg, s) && Enabled(s, e)
    ensures Inv(cfg, Next(cfg, s, e))
  {
    hide Exclusive, Staged, Judged, Current, Kept, D.Inv;
    match e {
      case Tick(later) => TickKeeps(cfg, s, later);
      case Scan(ids) => ScanKeeps(cfg, s, ids);
      case Resume => ResumeKeeps(cfg, s);
      case Create(c, id) => CreateKeeps(cfg, s, c, id);
      case Take(w) => TakeKeeps(cfg, s, w);
      case Get(p) => GetKeeps(cfg, s, p);
      case Set(p) => SetKeeps(cfg, s, p);
      case Act(p, outcome) => ActKeeps(cfg, s, p, outcome);
      case CleanNext => CleanNextKeeps(cfg, s);
      case Crash => CrashKeeps(cfg, s);
      case Pop(w) => PopKeeps(cfg, s, w);
      case Open => PhaseIsQuiet(cfg, s, e); QuietKeeps(cfg, s, Next(cfg, s, e));
      case Sweep(_) => PhaseIsQuiet(cfg, s, e); QuietKeeps(cfg, s, Next(cfg, s, e));
    }
  }

  lemma {:induction false} RunKeeps(cfg: Settings, s: State, es: seq<Event>, t: State)
    requires Inv(cfg, s) && Run(cfg, s, es, t)
    ensures Inv(cfg, t)
    decreases |es|
  {
    if es != [] {
      StepKeeps(cfg, s, es[0]);
      RunKeeps(cfg, Next(cfg, s, es[0]), es[1..], t);
    }
  }

  // ---- What holds in every run, through any number of crashes

  ghost predicate Reachable(cfg: Settings, s: State) {
    exists es :: Run(cfg, Init(), es, s)
  }

  lemma InitInv(cfg: Settings)
    ensures Inv(cfg, Init())
  {
    hide D.Inv, D.Init;
    var s := Init();
    NothingWaits();
    assert TodoOf(s) == [] && SweepOf(s) == [];
    assert forall q: Proc, id: JobId :: !Holds(s, q, id);
  }

  lemma ReachableInv(cfg: Settings, s: State)
    requires Reachable(cfg, s)
    ensures Inv(cfg, s)
  {
    var es :| Run(cfg, Init(), es, s);
    InitInv(cfg);
    RunKeeps(cfg, Init(), es, s);
  }

  lemma {:induction false} RunConcat(cfg: Settings, s: State, es: seq<Event>, m: State, fs: seq<Event>, t: State)
    requires Run(cfg, s, es, m) && Run(cfg, m, fs, t)
    ensures Run(cfg, s, es + fs, t)
    decreases |es|
  {
    if es == [] {
      assert es + fs == fs;
    } else {
      RunConcat(cfg, Next(cfg, s, es[0]), es[1..], m, fs, t);
      assert (es + fs)[0] == es[0] && (es + fs)[1..] == es[1..] + fs;
    }
  }

  lemma ReachableNext(cfg: Settings, s: State, e: Event)
    requires Reachable(cfg, s) && Enabled(s, e)
    ensures Reachable(cfg, Next(cfg, s, e))
  {
    var es :| Run(cfg, Init(), es, s);
    assert Run(cfg, s, [e], Next(cfg, s, e));
    RunConcat(cfg, Init(), es, s, [e], Next(cfg, s, e));
  }

  /** At any moment at most one process is concerned with a job, and while the job waits in the dispatcher
      or for recovery none is. */
  lemma OneOwnerAtATime(cfg: Settings, s: State, p: Proc, q: Proc, id: JobId)
    requires Reachable(cfg, s) && Holds(s, p, id)
    ensures Holds(s, q, id) ==> p == q
    ensures id !in s.d.enqueued && !Awaits(s, id)
  {
    ReachableInv(cfg, s);
  }

  /** So no write is ever lost: whatever happened between a process's read and its write, the record it
      overwrites is the one it read, or has expired meanwhile. */
  lemma NoLostUpdate(cfg: Settings, s: State, p: Proc)
    requires Reachable(cfg, s) && Enabled(s, Set(p))
    ensures JobStore.Get(s.redis, s.now, s.procs[p].id) == s.procs[p].read ||
            JobStore.Get(s.redis, s.now, s.procs[p].id).None?
  {
    ReachableInv(cfg, s);
  }

  /** Nothing that is visible as completed lacks a saved result. */
  lemma CompletedMeansSaved(cfg: Settings, s: State, id: JobId)
    requires Reachable(cfg, s)
    requires Live(s.redis, s.now, id) && s.redis.jobs[id].value.status == Completed
    ensures id in s.saved
  {
    ReachableInv(cfg, s);
    assert Suits(s, id, Completed);
  }

  /** No unfinished job is stranded: once recovery has scanned, every visible unfinished job waits in the
      dispatcher, waits for recovery, or is in the hands of exactly one process; and the scan itself
      returns precisely the visible unfinished jobs. */
  lemma NothingIsStranded(cfg: Settings, s: State, id: JobId)
    requires Reachable(cfg, s)
    ensures Recoverable(s.redis, s.now, id) && !s.phase.Starting? ==>
              id in s.d.enqueued || Awaits(s, id) || exists p :: Holds(s, p, id) && !Late(s.procs[p].stage)
    ensures forall ids :: Enabled(s, Scan(ids)) ==> (id in ids <==> Recoverable(s.redis, s.now, id))
  {
    ReachableInv(cfg, s);
    if Recoverable(s.redis, s.now, id) && !s.phase.Starting? && Held(s, id) {
      var p :| Holds(s, p, id);
      assert Suits(s, id, s.redis.jobs[id].value.status);
    }
    forall ids | Enabled(s, Scan(ids)) ensures id in ids <==> Recoverable(s.redis, s.now, id) {
      ScanIsExact(s.redis, s.now, ids);
    }
  }

  lemma VerdictStands(cfg: Settings, s: State, e: Event, id: JobId)
    requires Inv(cfg, s) && Enabled(s, e) && id in s.verdict
    ensures id in Next(cfg, s, e).verdict && Next(cfg, s, e).verdict[id] == s.verdict[id]
  {
    if e.Get? || e.Set? {
      assert Holds(s, e.p, s.procs[e.p].id);
    }
  }

  lemma {:induction false} VerdictStandsThrough(cfg: Settings, s: State, es: seq<Event>, t: State, id: JobId)
    requires Inv(cfg, s) && Run(cfg, s, es, t) && id in s.verdict
    ensures id in t.verdict && t.verdict[id] == s.verdict[id]
    decreases |es|
  {
    if es != [] {
      VerdictStands(cfg, s, es[0], id);
      StepKeeps(cfg, s, es[0]);
      VerdictStandsThrough(cfg, Next(cfg, s, es[0]), es[1..], t, id);
    }
  }

  /** Terminal statuses are absorbing, across crashes and expiries: a job seen finished is never seen
      with another status. */
  lemma TerminalIsForever(cfg: Settings, s: State, es: seq<Event>, t: State, id: JobId)
    requires Reachable(cfg, s) && Run(cfg, s, es, t)
    requires Live(s.redis, s.now, id) && Terminal(s.redis.jobs[id].value.status)
    requires Live(t.redis, t.now, id)
    ensures t.redis.jobs[id].value.status == s.redis.jobs[id].value.status
  {
    ReachableInv(cfg, s);
    RunKeeps(cfg, s, es, t);
    assert Suits(s, id, s.redis.jobs[id].value.status);
    VerdictStandsThrough(cfg, s, es, t, id);
    assert Suits(t, id, t.redis.jobs[id].value.status);
  }
}

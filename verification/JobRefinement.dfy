/**
 The service's own operations are runs of the pipeline in which one process works and nobody disturbs it: a
 worker's turn, the recovery of one job, and the cleanup of one video.
 */
module JobRefinement {
  import opened Wrappers
  import opened JobStore
  import opened JobPipeline
  import D = Dispatcher
  import S = JobService

  predicate ByProcess(e: Event, p: Proc) { e == Get(p) || e == Set(p) || (e.Act? && e.p == p) }

  /** Process `p` brings the service from one state to another, alone. */
  ghost predicate Works(cfg: Settings, p: Proc, s: State, t: State) {
    exists es :: Run(cfg, s, es, t) && forall e :: e in es ==> ByProcess(e, p)
  }

  lemma WorksNot(cfg: Settings, p: Proc, s: State)
    ensures Works(cfg, p, s, s)
  {
    assert Run(cfg, s, [], s);
  }

  lemma WorksOn(cfg: Settings, p: Proc, s: State, m: State, e: Event)
    requires Works(cfg, p, s, m) && Enabled(m, e) && ByProcess(e, p)
    ensures Works(cfg, p, s, Next(cfg, m, e))
  {
    hide Next, Enabled;
    var es :| Run(cfg, s, es, m) && forall e :: e in es ==> ByProcess(e, p);
    var t := Next(cfg, m, e);
    assert [e][1..] == [] && Run(cfg, t, [], t) && Run(cfg, m, [e], t);
    RunConcat(cfg, s, es, m, [e], t);
    assert forall f :: f in es + [e] ==> ByProcess(f, p);
  }

  /** Having started in `s`, process `p` is at `stage` with job `id`, or has let it go, and nothing else has
      changed but the store. */
  ghost predicate Got(cfg: Settings, s: State, p: Proc, id: JobId, t: State, stage: Option<Stage>, redis: Redis) {
    && p in s.procs && s.procs[p].id == id
    && Works(cfg, p, s, t)
    && t.procs == (if stage.Some? then s.procs[p := Pc(id, stage.value, None)] else s.procs - {p})
    && t.redis == redis && t.now == s.now && t.d == s.d && t.phase == s.phase && t.used == s.used
  }

  /** A whole update of a record that is there. */
  lemma UpdatesRecord(cfg: Settings, s: State, p: Proc, id: JobId, m: State, stage: Stage, r: Redis) returns (t: State)
    requires Got(cfg, s, p, id, m, Some(stage), r) && Updates(stage) && Live(r, m.now, id)
    ensures Got(cfg, s, p, id, t, After(cfg, stage),
                Put(r, cfg.ttl, s.now, id, Patched(stage, r.jobs[id].value).(updatedAt := s.now)))
  {
    hide Works, After, Patched, Put;
    var n := Next(cfg, m, Get(p));
    assert n == m.(procs := m.procs[p := Pc(id, stage, Some(r.jobs[id].value))]);
    t := Next(cfg, n, Set(p));
    WorksOn(cfg, p, s, m, Get(p));
    WorksOn(cfg, p, s, n, Set(p));
  }

  /** The worker's own work, and how it goes on. */
  predicate LeadsTo(cfg: Settings, now: Time, stage: Stage, outcome: Outcome, next: Stage) {
    match stage
    case Downloading(path) => outcome.Fails? && next == Fail(path, now)
    case Download(path) => next == if outcome.Gives? then Preprocessing(outcome.file) else Fail(path, now)
    case Preprocess(file) => next == if outcome.Gives? then Prepared(file) else Fail(Some(file), now)
    case Build(path) => next == if outcome.Gives? then Save(path, now + cfg.cacheTtl) else Fail(path, now)
    case _ => false
  }

  lemma Acts(cfg: Settings, s: State, p: Proc, id: JobId, m: State, stage: Stage, r: Redis, outcome: Outcome, next: Stage)
    returns (t: State)
    requires Got(cfg, s, p, id, m, Some(stage), r) && s.d.adding.None? && LeadsTo(cfg, s.now, stage, outcome, next)
    ensures Got(cfg, s, p, id, t, Some(next), r)
  {
    hide Works;
    t := Next(cfg, m, Act(p, outcome));
    WorksOn(cfg, p, s, m, Act(p, outcome));
  }

  lemma Saves(cfg: Settings, s: State, p: Proc, id: JobId, m: State, path: Option<Path>, expireAt: Time, r: Redis)
    returns (t: State)
    requires Got(cfg, s, p, id, m, Some(Save(path, expireAt)), r) && s.d.adding.None?
    ensures Got(cfg, s, p, id, t, Some(Complete(path, expireAt)), r.(results := r.results[id := s.now + cfg.ttl]))
  {
    hide Works;
    t := Next(cfg, m, Act(p, Fails));
    WorksOn(cfg, p, s, m, Act(p, Fails));
  }

  /** The last stage, which lets the job go. */
  lemma Ends(cfg: Settings, s: State, p: Proc, id: JobId, m: State, stage: Stage, r: Redis) returns (t: State)
    requires Got(cfg, s, p, id, m, Some(stage), r) && s.d.adding.None? && (stage.Schedule? || stage.ClearEntry?)
    ensures Got(cfg, s, p, id, t, None,
                r.(videoExpire := if stage.Schedule? then r.videoExpire[id := stage.expireAt] else r.videoExpire - {id}))
  {
    hide Works;
    t := Next(cfg, m, Act(p, Fails));
    WorksOn(cfg, p, s, m, Act(p, Fails));
    assert s.procs[p := Pc(id, stage, None)] - {p} == s.procs - {p};
  }

  // ---- The store in the course of a turn

  /** The store `r` but for the record of a job in progress, or of a finished one. */
  function InHand(r: Redis, ttl: nat, now: Time, id: JobId, job: Job): Redis {
    r.(jobs := r.jobs[id := Entry(job, now + ttl)], active := ActiveIds(r, now) + {id}, activeExpires := now + ttl)
  }

  function Finished(r: Redis, ttl: nat, now: Time, id: JobId, job: Job): Redis {
    r.(jobs := r.jobs[id := Entry(job, now + ttl)], active := ActiveIds(r, now) - {id}, activeExpires := now + ttl)
  }

  lemma PutAgain(r: Redis, ttl: nat, now: Time, id: JobId, was: Job, job: Job)
    requires ttl > 0
    ensures !Terminal(job.status) ==> Put(r, ttl, now, id, job) == InHand(r, ttl, now, id, job)
    ensures !Terminal(job.status) ==> Put(InHand(r, ttl, now, id, was), ttl, now, id, job) == InHand(r, ttl, now, id, job)
    ensures Terminal(job.status) ==> Put(InHand(r, ttl, now, id, was), ttl, now, id, job) == Finished(r, ttl, now, id, job)
    ensures Terminal(job.status) ==> Put(Finished(r, ttl, now, id, was), ttl, now, id, job) == Finished(r, ttl, now, id, job)
  {
  }

  lemma InHandIsLive(r: Redis, ttl: nat, now: Time, id: JobId, job: Job)
    requires ttl > 0
    ensures Live(InHand(r, ttl, now, id, job), now, id) && Live(Finished(r, ttl, now, id, job), now, id)
    ensures InHand(r, ttl, now, id, job).jobs[id].value == job && Finished(r, ttl, now, id, job).jobs[id].value == job
  {
  }

  /** An update in the course of a turn: `done` tells whether the job was finished before. */
  lemma UpdatesInTurn(
      cfg: Settings, s: State, p: Proc, id: JobId, m: State, stage: Stage, r: Redis, job: Job, done: bool)
    returns (t: State)
    requires cfg.ttl > 0 && Updates(stage)
    requires Got(cfg, s, p, id, m, Some(stage),
                 if done then Finished(r, cfg.ttl, s.now, id, job) else InHand(r, cfg.ttl, s.now, id, job))
    requires done ==> Terminal(Patched(stage, job).status)
    ensures
      var next := Patched(stage, job).(updatedAt := s.now);
      Got(cfg, s, p, id, t, After(cfg, stage),
          if Terminal(next.status) then Finished(r, cfg.ttl, s.now, id, next) else InHand(r, cfg.ttl, s.now, id, next))
  {
    InHandIsLive(r, cfg.ttl, s.now, id, job);
    var was := if done then Finished(r, cfg.ttl, s.now, id, job) else InHand(r, cfg.ttl, s.now, id, job);
    var next := Patched(stage, job).(updatedAt := s.now);
    PutAgain(r, cfg.ttl, s.now, id, job, next);
    assert Live(was, m.now, id) && was.jobs[id].value == job;
    hide Got, After, Patched, Put, InHand, Finished, Live;
    t := UpdatesRecord(cfg, s, p, id, m, stage, was);
  }

  // ---- How a turn ends

  /** The store after a failure with a video at `path`, or none. */
  function FailedStore(cfg: Settings, r: Redis, now: Time, id: JobId, job: Job, path: Option<Path>): Redis {
    var failed := job.(status := Failed, progress := 100, updatedAt := now);
    if path.None? then Finished(r, cfg.ttl, now, id, failed)
    else if cfg.failedTtl > 0 then
      var until := now + cfg.failedTtl;
      Finished(r, cfg.ttl, now, id, failed.(cachePath := path, videoExpireAt := Some(until))).(
        videoExpire := r.videoExpire[id := until])
    else
      Finished(r, cfg.ttl, now, id, failed.(cachePath := None, videoExpireAt := None)).(
        videoExpire := r.videoExpire - {id})
  }

  /** The store after a success with a video at `path`, or none. */
  function CompletedStore(cfg: Settings, r: Redis, now: Time, id: JobId, job: Job, path: Option<Path>): Redis {
    var saved := r.(results := r.results[id := now + cfg.ttl]);
    var done := job.(status := Completed, progress := 100, updatedAt := now);
    if path.None? then Finished(saved, cfg.ttl, now, id, done)
    else
      var until := now + cfg.cacheTtl;
      Finished(saved, cfg.ttl, now, id, done.(cachePath := path, videoExpireAt := Some(until))).(
        videoExpire := r.videoExpire[id := until])
  }

  lemma TurnFails(cfg: Settings, s: State, p: Proc, id: JobId, m: State, path: Option<Path>, r: Redis, job: Job)
    returns (t: State)
    requires cfg.ttl > 0 && s.d.adding.None?
    requires Got(cfg, s, p, id, m, Some(Fail(path, s.now)), InHand(r, cfg.ttl, s.now, id, job))
    ensures Got(cfg, s, p, id, t, None, FailedStore(cfg, r, s.now, id, job, path))
  {
    hide Got;
    var failed := job.(status := Failed, progress := 100, updatedAt := s.now);
    t := UpdatesInTurn(cfg, s, p, id, m, Fail(path, s.now), r, job, false);
    if path.Some? {
      var until := s.now + cfg.failedTtl;
      var stage := if cfg.failedTtl > 0 then KeepFailed(path.value, until) else ClearCache;
      var last := if cfg.failedTtl > 0 then Schedule(until) else ClearEntry;
      var job' := Patched(stage, failed).(updatedAt := s.now);
      t := UpdatesInTurn(cfg, s, p, id, t, stage, r, failed, true);
      t := Ends(cfg, s, p, id, t, last, Finished(r, cfg.ttl, s.now, id, job'));
    }
  }

  lemma TurnSucceeds(cfg: Settings, s: State, p: Proc, id: JobId, m: State, path: Option<Path>, r: Redis, job: Job)
    returns (t: State)
    requires cfg.ttl > 0 && s.d.adding.None?
    requires Got(cfg, s, p, id, m, Some(Build(path)), InHand(r, cfg.ttl, s.now, id, job))
    ensures Got(cfg, s, p, id, t, None, CompletedStore(cfg, r, s.now, id, job, path))
  {
    hide Got;
    var until := s.now + cfg.cacheTtl;
    var saved := r.(results := r.results[id := s.now + cfg.ttl]);
    t := Acts(cfg, s, p, id, m, Build(path), InHand(r, cfg.ttl, s.now, id, job), Gives(""), Save(path, until));
    t := Saves(cfg, s, p, id, t, path, until, InHand(r, cfg.ttl, s.now, id, job));
    assert InHand(r, cfg.ttl, s.now, id, job).(results := r.results[id := s.now + cfg.ttl]) ==
      InHand(saved, cfg.ttl, s.now, id, job);
    t := UpdatesInTurn(cfg, s, p, id, t, Complete(path, until), saved, job, false);
    if path.Some? {
      var done := Patched(Complete(path, until), job).(updatedAt := s.now);
      t := Ends(cfg, s, p, id, t, Schedule(until), Finished(saved, cfg.ttl, s.now, id, done));
    }
  }

  /** The result is built, or is not. */
  lemma TurnEnds(
      cfg: Settings, s: State, p: Proc, id: JobId, m: State, path: Option<Path>, r: Redis, job: Job, builds: bool)
    returns (t: State)
    requires cfg.ttl > 0 && s.d.adding.None?
    requires Got(cfg, s, p, id, m, Some(Build(path)), InHand(r, cfg.ttl, s.now, id, job))
    ensures Got(cfg, s, p, id, t, None,
                if builds then CompletedStore(cfg, r, s.now, id, job, path) else FailedStore(cfg, r, s.now, id, job, path))
  {
    hide Got, InHand, CompletedStore, FailedStore;
    if builds {
      t := TurnSucceeds(cfg, s, p, id, m, path, r, job);
    } else {
      t := Acts(cfg, s, p, id, m, Build(path), InHand(r, cfg.ttl, s.now, id, job), Fails, Fail(path, s.now));
      t := TurnFails(cfg, s, p, id, t, path, r, job);
    }
  }

  // ---- A whole turn

  function Own(cfg: Settings): S.Settings { S.Settings(cfg.remoteUrl, cfg.cacheTtl, cfg.failedTtl) }

  /** From the link taken over, or the video downloaded, to the end. */
  lemma LinkedTurn(cfg: Settings, s: State, p: Proc, id: JobId, m: State, r: Redis, job: Job, w: S.World)
    returns (t: State)
    requires cfg.ttl > 0 && s.d.adding.None? && cfg.remoteUrl && job.status == Processing
    requires Got(cfg, s, p, id, m, Some(Linked(job.cachePath)), InHand(r, cfg.ttl, s.now, id, job))
    ensures
      var linked := job.(progress := 55, cachePath := None, updatedAt := s.now);
      Got(cfg, s, p, id, t, None,
          if w.builds then CompletedStore(cfg, r, s.now, id, linked, job.cachePath)
          else FailedStore(cfg, r, s.now, id, linked, job.cachePath))
  {
    hide Got, InHand, CompletedStore, FailedStore;
    t := UpdatesInTurn(cfg, s, p, id, m, Linked(job.cachePath), r, job, false);
    t := TurnEnds(cfg, s, p, id, t, job.cachePath, r, job.(progress := 55, cachePath := None, updatedAt := s.now), w.builds);
  }

  lemma DownloadedTurn(
      cfg: Settings, s: State, p: Proc, id: JobId, m: State, r: Redis, job: Job, w: S.World, file: Path)
    returns (t: State)
    requires cfg.ttl > 0 && s.d.adding.None? && job.status == Processing
    requires Got(cfg, s, p, id, m, Some(Preprocessing(file)), InHand(r, cfg.ttl, s.now, id, job))
    ensures
      var at := job.(progress := 35, updatedAt := s.now);
      var prepared := at.(progress := 55, cachePath := Some(file));
      Got(cfg, s, p, id, t, None,
          if !w.preprocesses then FailedStore(cfg, r, s.now, id, at, Some(file))
          else if w.builds then CompletedStore(cfg, r, s.now, id, prepared, Some(file))
          else FailedStore(cfg, r, s.now, id, prepared, Some(file)))
  {
    hide Got, InHand, CompletedStore, FailedStore;
    var at := job.(progress := 35, updatedAt := s.now);
    var prepared := at.(progress := 55, cachePath := Some(file));
    t := UpdatesInTurn(cfg, s, p, id, m, Preprocessing(file), r, job, false);
    var outcome := if w.preprocesses then Gives(file) else Fails;
    var next := if w.preprocesses then Prepared(file) else Fail(Some(file), s.now);
    t := Acts(cfg, s, p, id, t, Preprocess(file), InHand(r, cfg.ttl, s.now, id, at), outcome, next);
    if w.preprocesses {
      t := UpdatesInTurn(cfg, s, p, id, t, Prepared(file), r, at, false);
      t := TurnEnds(cfg, s, p, id, t, Some(file), r, prepared, w.builds);
    } else {
      t := TurnFails(cfg, s, p, id, t, Some(file), r, at);
    }
  }

  lemma DownloadingTurn(cfg: Settings, s: State, p: Proc, id: JobId, m: State, r: Redis, job: Job, w: S.World)
    returns (t: State)
    requires cfg.ttl > 0 && s.d.adding.None? && !cfg.remoteUrl && job.status == Processing
    requires Got(cfg, s, p, id, m, Some(Downloading(job.cachePath)), InHand(r, cfg.ttl, s.now, id, job))
    ensures
      var at := job.(progress := 20, updatedAt := s.now);
      Got(cfg, s, p, id, t, None,
          if !w.linkOk then FailedStore(cfg, r, s.now, id, job, job.cachePath)
          else
            match w.file
            case None => FailedStore(cfg, r, s.now, id, at, job.cachePath)
            case Some(file) =>
              var prepared := at.(progress := 55, cachePath := Some(file));
              if !w.preprocesses then FailedStore(cfg, r, s.now, id, at.(progress := 35), Some(file))
              else if w.builds then CompletedStore(cfg, r, s.now, id, prepared, Some(file))
              else FailedStore(cfg, r, s.now, id, prepared, Some(file)))
  {
    hide Got, InHand, CompletedStore, FailedStore;
    var path := job.cachePath;
    if !w.linkOk {
      t := Acts(cfg, s, p, id, m, Downloading(path), InHand(r, cfg.ttl, s.now, id, job), Fails, Fail(path, s.now));
      t := TurnFails(cfg, s, p, id, t, path, r, job);
    } else {
      var at := job.(progress := 20, updatedAt := s.now);
      t := UpdatesInTurn(cfg, s, p, id, m, Downloading(path), r, job, false);
      match w.file {
        case None =>
          t := Acts(cfg, s, p, id, t, Download(path), InHand(r, cfg.ttl, s.now, id, at), Fails, Fail(path, s.now));
          t := TurnFails(cfg, s, p, id, t, path, r, at);
        case Some(file) =>
          t := Acts(cfg, s, p, id, t, Download(path), InHand(r, cfg.ttl, s.now, id, at), Gives(file), Preprocessing(file));
          t := DownloadedTurn(cfg, s, p, id, t, r, at, w, file);
      }
    }
  }

  lemma FailedIsTurned(cfg: Settings, r: Redis, now: Time, id: JobId, job: Job, w: S.World)
    requires Recoverable(r, now, id) && r.jobs[id].value == job && !S.Succeeds(Own(cfg), w)
    ensures
      var path := S.VideoOf(Own(cfg), w, job);
      forall was: Job :: was == job.(status := was.status, progress := was.progress, updatedAt := was.updatedAt,
                                     cachePath := was.cachePath) && (path.None? ==> was.cachePath == None) ==>
        S.Turned(r, FailedStore(cfg, r, now, id, was, path), Own(cfg), cfg.ttl, now, id, w)
  {
  }

  lemma CompletedIsTurned(cfg: Settings, r: Redis, now: Time, id: JobId, job: Job, w: S.World)
    requires Recoverable(r, now, id) && r.jobs[id].value == job && S.Succeeds(Own(cfg), w)
    ensures
      var path := S.VideoOf(Own(cfg), w, job);
      forall was: Job :: was == job.(status := was.status, progress := was.progress, updatedAt := was.updatedAt,
                                     cachePath := was.cachePath) && (path.None? ==> was.cachePath == None) ==>
        S.Turned(r, CompletedStore(cfg, r, now, id, was, path), Own(cfg), cfg.ttl, now, id, w)
  {
  }

  /** The store and the state at the end of a turn whose job is started. */
  ghost predicate TurnOver(cfg: Settings, s: State, p: Proc, id: JobId, t: State, w: S.World) {
    Got(cfg, s, p, id, t, None, t.redis) && S.Turned(s.redis, t.redis, Own(cfg), cfg.ttl, s.now, id, w)
  }

  lemma Started(cfg: Settings, s: State, p: Proc, id: JobId, m: State) returns (t: State)
    requires cfg.ttl > 0 && Recoverable(s.redis, s.now, id)
    requires Got(cfg, s, p, id, m, Some(Start(s.redis.jobs[id].value.cachePath)), s.redis)
    ensures
      var job := s.redis.jobs[id].value;
      var started := job.(status := Processing, progress := 5, updatedAt := s.now);
      Got(cfg, s, p, id, t, Some(if cfg.remoteUrl then Linked(job.cachePath) else Downloading(job.cachePath)),
          InHand(s.redis, cfg.ttl, s.now, id, started))
  {
    var job := s.redis.jobs[id].value;
    PutAgain(s.redis, cfg.ttl, s.now, id, job, job.(status := Processing, progress := 5, updatedAt := s.now));
    assert m.now == s.now;
    hide Got, InHand, Put;
    t := UpdatesRecord(cfg, s, p, id, m, Start(job.cachePath), s.redis);
  }

  lemma StartedTurn(cfg: Settings, s: State, p: Proc, id: JobId, m: State, w: S.World) returns (t: State)
    requires cfg.ttl > 0 && s.d.adding.None? && Recoverable(s.redis, s.now, id)
    requires Got(cfg, s, p, id, m, Some(Start(s.redis.jobs[id].value.cachePath)), s.redis)
    ensures TurnOver(cfg, s, p, id, t, w)
  {
    var job, r := s.redis.jobs[id].value, s.redis;
    var started := job.(status := Processing, progress := 5, updatedAt := s.now);
    hide InHand, CompletedStore, FailedStore, S.Turned;
    t := Started(cfg, s, p, id, m);
    if S.Succeeds(Own(cfg), w) {
      CompletedIsTurned(cfg, r, s.now, id, job, w);
    } else {
      FailedIsTurned(cfg, r, s.now, id, job, w);
    }
    if cfg.remoteUrl {
      t := LinkedTurn(cfg, s, p, id, t, r, started, w);
    } else {
      t := DownloadingTurn(cfg, s, p, id, t, r, started, w);
    }
  }

  /** A worker that has just taken a job and whom nobody disturbs makes of the store exactly what one turn of the
      service does, whatever the outside world answers, and lets the job go. */
  lemma TurnRefines(cfg: Settings, s: State, p: Proc, id: JobId, w: S.World) returns (t: State)
    requires cfg.ttl > 0 && s.d.adding.None?
    requires p in s.procs && s.procs[p] == Pc(id, Fetch, None)
    ensures Works(cfg, p, s, t)
    ensures S.Turned(s.redis, t.redis, Own(cfg), cfg.ttl, s.now, id, w)
    ensures t == s.(redis := t.redis, procs := s.procs - {p}, saved := t.saved, verdict := t.verdict)
  {
    WorksNot(cfg, p, s);
    WorksOn(cfg, p, s, s, Act(p, Fails));
    t := Next(cfg, s, Act(p, Fails));
    if Recoverable(s.redis, s.now, id) {
      var job := s.redis.jobs[id].value;
      assert Got(cfg, s, p, id, t, Some(Start(job.cachePath)), s.redis);
      t := StartedTurn(cfg, s, p, id, t, w);
    }
  }

  // ---- Recovery, cleanup and creation

  /** An update whether or not the record is there. */
  lemma UpdatesAny(cfg: Settings, s: State, p: Proc, id: JobId, m: State, stage: Stage, r: Redis) returns (t: State)
    requires Got(cfg, s, p, id, m, Some(stage), r) && Updates(stage)
    ensures Got(cfg, s, p, id, t, After(cfg, stage),
                if Live(r, s.now, id) then Put(r, cfg.ttl, s.now, id, Patched(stage, r.jobs[id].value).(updatedAt := s.now))
                else r)
  {
    hide Works, After, Patched, Put;
    if Live(r, s.now, id) {
      t := UpdatesRecord(cfg, s, p, id, m, stage, r);
    } else {
      t := Next(cfg, m, Get(p));
      WorksOn(cfg, p, s, m, Get(p));
    }
  }

  /** The job at the end of its list goes to the dispatcher, unless it is there. */
  lemma EnqueuesOne(cfg: Settings, s: State, p: Proc, id: JobId, m: State, r: Redis) returns (t: State)
    requires Got(cfg, s, p, id, m, Some(Enqueue), r) && s.d.adding.None?
    ensures Works(cfg, p, s, t) && t == s.(redis := r, d := t.d, procs := s.procs - {p}, saved := t.saved, verdict := t.verdict)
    ensures t.d.queue == if id in s.d.enqueued then s.d.queue else s.d.queue + [id]
    ensures t.d.enqueued == s.d.enqueued + {id}
  {
    hide Works;
    t := Next(cfg, m, Act(p, Fails));
    WorksOn(cfg, p, s, m, Act(p, Fails));
  }

  /** Recovery's turn at one job makes of store and dispatcher what the service's recovery does. */
  lemma RecoveryRefines(cfg: Settings, s: State) returns (t: State)
    requires Enabled(s, Resume) && s.d.adding.None?
    requires Recoverable(s.redis, s.now, s.phase.todo[0].id)
    requires s.phase.todo[0].status == s.redis.jobs[s.phase.todo[0].id].value.status
    ensures Works(cfg, Recovery, Next(cfg, s, Resume), t)
    ensures t == s.(redis := t.redis, d := t.d, phase := Recovering(s.phase.todo[1..]), saved := t.saved, verdict := t.verdict)
    ensures
      var id := s.phase.todo[0].id;
      && S.Requeued(s.redis, t.redis, cfg.ttl, s.now, id)
      && (forall k :: k != id ==> S.SameJob(s.redis, t.redis, k))
      && t.redis.results == s.redis.results && t.redis.videoExpire == s.redis.videoExpire
      && t.d.queue == (if id in s.d.enqueued then s.d.queue else s.d.queue + [id])
      && t.d.enqueued == s.d.enqueued + {id}
  {
    var m, head := Next(cfg, s, Resume), s.phase.todo[0];
    WorksNot(cfg, Recovery, m);
    hide Works;
    assert m.procs - {Recovery} == s.procs;
    t := m;
    if head.status == Processing {
      assert Got(cfg, m, Recovery, head.id, m, Some(Reset), m.redis);
      t := UpdatesAny(cfg, m, Recovery, head.id, m, Reset, m.redis);
    }
    t := EnqueuesOne(cfg, m, Recovery, head.id, t, t.redis);
  }

  /** The cleanup loop's turn at one job makes of the store what the service's cleanup does. */
  lemma CleanupRefines(cfg: Settings, s: State) returns (t: State)
    requires Enabled(s, CleanNext) && s.d.adding.None?
    ensures Works(cfg, Cleanup, Next(cfg, s, CleanNext), t)
    ensures t == s.(redis := t.redis, phase := Serving(s.phase.sweep[1..]), saved := t.saved, verdict := t.verdict)
    ensures
      var id := s.phase.sweep[0];
      && S.Cleared(s.redis, t.redis, cfg.ttl, s.now, id)
      && (forall k :: k != id ==> S.SameJob(s.redis, t.redis, k))
      && t.redis.results == s.redis.results && t.redis.videoExpire == s.redis.videoExpire - {id}
  {
    var m, id := Next(cfg, s, CleanNext), s.phase.sweep[0];
    WorksNot(cfg, Cleanup, m);
    hide Works;
    assert m.procs - {Cleanup} == s.procs;
    assert Got(cfg, m, Cleanup, id, m, Some(ClearCache), m.redis);
    t := UpdatesAny(cfg, m, Cleanup, id, m, ClearCache, m.redis);
    t := Ends(cfg, m, Cleanup, id, t, ClearEntry, t.redis);
  }

  /** Accepting a job stores it and puts it in the queue. */
  lemma CreationRefines(cfg: Settings, s: State, c: nat, id: JobId) returns (t: State)
    requires Enabled(s, Create(c, id)) && s.d.adding.None? && id !in s.d.enqueued
    ensures Works(cfg, Creator(c), Next(cfg, s, Create(c, id)), t)
    ensures t == s.(redis := Put(s.redis, cfg.ttl, s.now, id, Job(Queued, 0, s.now, s.now, None, None)),
                    d := t.d, used := s.used + {id}, saved := t.saved, verdict := t.verdict)
    ensures t.d.queue == s.d.queue + [id] && t.d.enqueued == s.d.enqueued + {id}
  {
    var m := Next(cfg, s, Create(c, id));
    WorksNot(cfg, Creator(c), m);
    hide Works;
    assert m.procs - {Creator(c)} == s.procs;
    t := EnqueuesOne(cfg, m, Creator(c), id, m, m.redis);
  }
}

/**
 The analysis service's own operations on the job store and the dispatcher, each without interruption and at one
 moment: accepting a job, restart recovery, one turn of a worker, and one round of the cleanup loop.
 `JobPipeline` interleaves the same steps; `JobRefinement` shows that these are its undisturbed runs.
 */
module JobService {
  import opened Wrappers
  import opened JobStore
  import D = Dispatcher

  /** Recovery's effect on one job: a job caught in the middle goes back to the start, a waiting one stays. */
  predicate Requeued(before: Redis, after: Redis, ttl: nat, now: Time, id: JobId) {
    && id in before.jobs && id in after.jobs
    && after.jobs[id] ==
         if before.jobs[id].value.status == Processing
         then Entry(before.jobs[id].value.(status := Queued, progress := 0, updatedAt := now), now + ttl)
         else before.jobs[id]
  }

  predicate SameJob(before: Redis, after: Redis, id: JobId) {
    (id in after.jobs <==> id in before.jobs) && (id in before.jobs ==> after.jobs[id] == before.jobs[id])
  }

  /** Cleanup's effect on one job: an unexpired record forgets its video and keeps all else. */
  predicate Cleared(before: Redis, after: Redis, ttl: nat, now: Time, id: JobId) {
    if Live(before, now, id) then
      && id in after.jobs
      && after.jobs[id] ==
           Entry(before.jobs[id].value.(cachePath := None, videoExpireAt := None, updatedAt := now), now + ttl)
    else SameJob(before, after, id)
  }

  lemma SameThenSame(before: Redis, middle: Redis, after: Redis, id: JobId)
    requires SameJob(before, middle, id) && SameJob(middle, after, id)
    ensures SameJob(before, after, id)
  {
  }

  lemma RequeueOneMore(before: Redis, middle: Redis, after: Redis, ttl: nat, now: Time, ids: seq<JobId>, i: nat)
    requires i < |ids| && forall k, j :: 0 <= k < j < |ids| ==> ids[k] != ids[j]
    requires forall j :: 0 <= j < i ==> Requeued(before, middle, ttl, now, ids[j])
    requires forall id :: id !in ids[..i] ==> SameJob(before, middle, id)
    requires Requeued(before, after, ttl, now, ids[i]) && forall id :: id != ids[i] ==> SameJob(middle, after, id)
    ensures forall j :: 0 <= j <= i ==> Requeued(before, after, ttl, now, ids[j])
    ensures forall id :: id !in ids[..i + 1] ==> SameJob(before, after, id)
  {
    forall j | 0 <= j < i ensures Requeued(before, after, ttl, now, ids[j]) {
      assert SameJob(middle, after, ids[j]);
    }
    hide Requeued, SameJob;
    forall id | id !in ids[..i + 1] ensures SameJob(before, after, id) {
      assert ids[..i + 1] == ids[..i] + [ids[i]];
      SameThenSame(before, middle, after, id);
    }
  }

  lemma DropOneMore<V>(schedule: map<JobId, V>, ids: seq<JobId>, more: seq<JobId>, id: JobId)
    requires more == ids + [id]
    ensures schedule - (set k | k in ids) - {id} == schedule - set k | k in more
  {
    assert (set k | k in more) == (set k | k in ids) + {id};
  }

  lemma ClearOneMore(before: Redis, middle: Redis, after: Redis, ttl: nat, now: Time, ids: seq<JobId>, i: nat)
    requires i < |ids| && forall k, j :: 0 <= k < j < |ids| ==> ids[k] != ids[j]
    requires forall j :: 0 <= j < i ==> Cleared(before, middle, ttl, now, ids[j])
    requires forall id :: id !in ids[..i] ==> SameJob(before, middle, id)
    requires Cleared(middle, after, ttl, now, ids[i]) && forall id :: id != ids[i] ==> SameJob(middle, after, id)
    ensures forall j :: 0 <= j <= i ==> Cleared(before, after, ttl, now, ids[j])
    ensures forall id :: id !in ids[..i + 1] ==> SameJob(before, after, id)
  {
    assert SameJob(before, middle, ids[i]);
    forall j | 0 <= j < i ensures Cleared(before, after, ttl, now, ids[j]) {
      assert SameJob(middle, after, ids[j]);
    }
    hide Cleared, SameJob;
    forall id | id !in ids[..i + 1] ensures SameJob(before, after, id) {
      assert ids[..i + 1] == ids[..i] + [ids[i]];
      SameThenSame(before, middle, after, id);
    }
  }

  /** How the outside world answers one run: whether the video link is usable, the downloaded file, and whether
      preprocessing and the result succeed. */
  datatype World = World(linkOk: bool, file: Option<Path>, preprocesses: bool, builds: bool)

  datatype Settings = Settings(remoteUrl: bool, cacheTtl: nat, failedTtl: nat)

  /** Whether a run ends with a result. */
  predicate Succeeds(cfg: Settings, w: World) {
    w.builds && (cfg.remoteUrl || (w.linkOk && w.file.Some? && w.preprocesses))
  }

  /** The local video a run ends up with: the one downloaded, else the one a former run left. */
  function VideoOf(cfg: Settings, w: World, job: Job): Option<Path> {
    if !cfg.remoteUrl && w.linkOk && w.file.Some? then w.file else job.cachePath
  }

  /** The record a run leaves. */
  function Outcome(cfg: Settings, w: World, now: Time, job: Job): Job {
    var video := VideoOf(cfg, w, job);
    if Succeeds(cfg, w) then
      job.(status := Completed, progress := 100, updatedAt := now, cachePath := video,
           videoExpireAt := if video.Some? then Some(now + cfg.cacheTtl) else job.videoExpireAt)
    else
      job.(status := Failed, progress := 100, updatedAt := now,
           cachePath := if video.Some? && cfg.failedTtl > 0 then video else None,
           videoExpireAt :=
             if video.None? then job.videoExpireAt
             else if cfg.failedTtl > 0 then Some(now + cfg.failedTtl) else None)
  }

  /** When a run's video is due for deletion, if it is kept. */
  function KeptUntil(cfg: Settings, w: World, now: Time, job: Job): Option<Time> {
    if VideoOf(cfg, w, job).None? then None
    else if Succeeds(cfg, w) then Some(now + cfg.cacheTtl)
    else if cfg.failedTtl > 0 then Some(now + cfg.failedTtl) else None
  }

  /** What one worker's turn at a job does to the store: nothing to a job that is gone or finished. */
  predicate Turned(before: Redis, after: Redis, cfg: Settings, ttl: nat, now: Time, id: JobId, w: World) {
    if !Recoverable(before, now, id) then after == before
    else
      var job := before.jobs[id].value;
      && after.jobs == before.jobs[id := Entry(Outcome(cfg, w, now, job), now + ttl)]
      && after.active == ActiveIds(before, now) - {id}
      && after.activeExpires == now + ttl
      && after.results == (if Succeeds(cfg, w) then before.results[id := now + ttl] else before.results)
      && after.videoExpire ==
           match KeptUntil(cfg, w, now, job)
           case Some(t) => before.videoExpire[id := t]
           case None => if Succeeds(cfg, w) || VideoOf(cfg, w, job).None?
                        then before.videoExpire else before.videoExpire - {id}
  }

  class Service {
    const store: Store
    const dispatcher: D.InMemoryDispatcher
    const settings: Settings

    constructor (store: Store, dispatcher: D.InMemoryDispatcher, settings: Settings)
      ensures this.store == store && this.dispatcher == dispatcher && this.settings == settings
    {
      this.store, this.dispatcher, this.settings := store, dispatcher, settings;
    }

    /** A new job is stored before it can be taken. */
    method CreateAnalysisJob(now: Time, id: JobId)
      requires id !in dispatcher.enqueued
      modifies store, dispatcher
      ensures store.View() == Put(old(store.View()), store.ttl, now, id, NewJob(now))
      ensures dispatcher.queue == old(dispatcher.queue) + [id]
      ensures dispatcher.enqueued == old(dispatcher.enqueued) + {id}
    {
      store.Create(now, id);
      var accepted := dispatcher.Enqueue(id);
    }

    /** After a restart, with nothing waiting yet: exactly the unexpired unfinished jobs wait, oldest first, all
        of them queued; no other record is touched. */
    method RecoverJobs(now: Time)
      requires dispatcher.queue == [] && dispatcher.enqueued == {}
      requires store.ttl > 0 && Indexed(store.View(), now) && Bounded(store.View(), store.ttl, now)
      modifies store, dispatcher
      ensures forall id :: id in dispatcher.queue <==> Recoverable(old(store.View()), now, id)
      ensures ByAge(old(store.View()), dispatcher.queue)
      ensures forall i, j :: 0 <= i < j < |dispatcher.queue| ==> dispatcher.queue[i] != dispatcher.queue[j]
      ensures forall id :: id in dispatcher.enqueued <==> id in dispatcher.queue
      ensures forall id :: id in dispatcher.queue ==> Requeued(old(store.View()), store.View(), store.ttl, now, id)
      ensures forall id :: id in dispatcher.queue ==>
                Get(store.View(), now, id).Some? && Get(store.View(), now, id).value.status == Queued
      ensures forall id :: id !in dispatcher.queue ==> SameJob(old(store.View()), store.View(), id)
      ensures store.results == old(store.results) && store.videoExpire == old(store.videoExpire)
      ensures Indexed(store.View(), now) && Bounded(store.View(), store.ttl, now)
    {
      ghost var before := store.View();
      var ids := store.ListRecoverableJobs(now);
      ScanIsExact(before, now, ids);
      for i := 0 to |ids|
        invariant dispatcher.queue == ids[..i] && forall id :: id in dispatcher.enqueued <==> id in ids[..i]
        invariant forall j :: 0 <= j < i ==> Requeued(before, store.View(), store.ttl, now, ids[j])
        invariant forall id :: id !in ids[..i] ==> SameJob(before, store.View(), id)
        invariant store.results == before.results && store.videoExpire == before.videoExpire
        invariant Indexed(store.View(), now) && Bounded(store.View(), store.ttl, now)
      {
        ghost var middle := store.View();
        RequeueAndEnqueue(now, ids[i], before);
        RequeueOneMore(before, middle, store.View(), store.ttl, now, ids, i);
        assert ids[..i + 1] == ids[..i] + [ids[i]];
      }
      assert ids[..|ids|] == ids;
    }

    method RequeueAndEnqueue(now: Time, id: JobId, ghost before: Redis)
      requires store.ttl > 0 && Indexed(store.View(), now) && Bounded(store.View(), store.ttl, now)
      requires id !in dispatcher.enqueued && Recoverable(before, now, id) && SameJob(before, store.View(), id)
      modifies store, dispatcher
      ensures Requeued(before, store.View(), store.ttl, now, id)
      ensures forall k :: k != id ==> SameJob(old(store.View()), store.View(), k)
      ensures store.results == old(store.results) && store.videoExpire == old(store.videoExpire)
      ensures Indexed(store.View(), now) && Bounded(store.View(), store.ttl, now)
      ensures dispatcher.queue == old(dispatcher.queue) + [id]
      ensures dispatcher.enqueued == old(dispatcher.enqueued) + {id}
    {
      var job := store.Read(now, id);
      if job.Some? && job.value.status == Processing {
        PutKeepsIndex(store.View(), store.ttl, now, id, job.value.(status := Queued, progress := 0, updatedAt := now));
        var updated := store.Update(now, id, (job: Job) => job.(status := Queued, progress := 0));
      }
      var accepted := dispatcher.Enqueue(id);
    }

    method ClearOne(now: Time, id: JobId)
      modifies store
      ensures Cleared(old(store.View()), store.View(), store.ttl, now, id)
      ensures forall k :: k != id ==> SameJob(old(store.View()), store.View(), k)
      ensures store.videoExpire == old(store.videoExpire) - {id} && store.results == old(store.results)
    {
      var updated := store.ClearVideoCache(now, id);
    }

    /** One round: the due videos, at most a hundred and the earliest first, are forgotten by their jobs and
        leave the schedule; nothing else changes. */
    method CleanUp(now: Time) returns (ids: seq<JobId>)
      modifies store
      ensures IsSweep(old(store.View()), now, ids)
      ensures store.videoExpire == old(store.videoExpire) - set id | id in ids
      ensures forall id :: id in ids ==> Cleared(old(store.View()), store.View(), store.ttl, now, id)
      ensures forall id :: id !in ids ==> SameJob(old(store.View()), store.View(), id)
      ensures store.results == old(store.results)
    {
      ids := store.ListExpiredVideoJobs(now);
      ghost var before := store.View();
      for i := 0 to |ids|
        invariant store.videoExpire == before.videoExpire - set id | id in ids[..i]
        invariant forall j :: 0 <= j < i ==> Cleared(before, store.View(), store.ttl, now, ids[j])
        invariant forall id :: id !in ids[..i] ==> SameJob(before, store.View(), id)
        invariant store.results == before.results
      {
        hide Cleared, SameJob;
        ghost var middle := store.View();
        ClearOne(now, ids[i]);
        ClearOneMore(before, middle, store.View(), store.ttl, now, ids, i);
        assert ids[..i + 1] == ids[..i] + [ids[i]];
        DropOneMore(before.videoExpire, ids[..i], ids[..i + 1], ids[i]);
      }
      assert ids[..|ids|] == ids;
    }

    /** One worker's turn at a job, as far as nobody disturbs it. A job that is gone or finished is left alone. */
    method Run(now: Time, id: JobId, w: World)
      requires store.ttl > 0
      modifies store
      ensures Turned(old(store.View()), store.View(), settings, store.ttl, now, id, w)
    {
      var job := store.Read(now, id);
      if job.None? || Terminal(job.value.status) {
        return;
      }
      var updated := store.Update(now, id, (job: Job) => job.(status := Processing, progress := 5));
      var ready, video := PrepareVideo(now, id, w);
      if !ready || !w.builds {
        HandleFailure(now, id, video);
        return;
      }
      Complete(now, id, video);
    }

    /** The record of a job in progress at this moment. */
    ghost predicate InProgress(now: Time, id: JobId)
      reads store
    {
      && id in store.jobs && store.jobs[id].expires == now + store.ttl && store.jobs[id].value.updatedAt == now
      && store.jobs[id].value.status == Processing
      && id in store.active && store.activeExpires == now + store.ttl
    }

    /** Takes over the video's link, or downloads and preprocesses it. */
    method PrepareVideo(now: Time, id: JobId, w: World) returns (ready: bool, video: Option<Path>)
      requires InProgress(now, id) && store.ttl > 0
      modifies store
      ensures InProgress(now, id) && store.jobs == old(store.jobs)[id := store.jobs[id]]
      ensures ready == (settings.remoteUrl || (w.linkOk && w.file.Some? && w.preprocesses))
      ensures var was, job := old(store.jobs[id].value), store.jobs[id].value;
        && video == VideoOf(settings, w, was)
        && job == was.(progress := job.progress, cachePath := job.cachePath) && (video.None? ==> job.cachePath.None?)
      ensures store.active == old(store.active)
      ensures store.results == old(store.results) && store.videoExpire == old(store.videoExpire)
    {
      video := store.jobs[id].value.cachePath;
      if settings.remoteUrl {
        var updated := store.Update(now, id, (job: Job) => job.(progress := 55, cachePath := None));
        return true, video;
      }
      if !w.linkOk {
        return false, video;
      }
      var updated := store.Update(now, id, (job: Job) => job.(progress := 20));
      if w.file.None? {
        return false, video;
      }
      video := w.file;
      updated := store.Update(now, id, (job: Job) => job.(progress := 35));
      if !w.preprocesses {
        return false, video;
      }
      updated := store.Update(now, id, (job: Job) => job.(progress := 55, cachePath := w.file));
      ready := true;
    }

    /** Result first, then the completed record, then the schedule. */
    method Complete(now: Time, id: JobId, video: Option<Path>)
      requires InProgress(now, id) && store.ttl > 0
      modifies store
      ensures var was := old(store.jobs[id].value);
        store.jobs == old(store.jobs)[id := Entry(
          if video.Some? then
            was.(status := Completed, progress := 100, cachePath := video,
                 videoExpireAt := Some(now + settings.cacheTtl))
          else was.(status := Completed, progress := 100),
          now + store.ttl)]
      ensures store.active == old(store.active) - {id} && store.activeExpires == old(store.activeExpires)
      ensures store.results == old(store.results)[id := now + store.ttl]
      ensures store.videoExpire ==
                if video.Some? then old(store.videoExpire)[id := now + settings.cacheTtl] else old(store.videoExpire)
    {
      var expireAt := now + settings.cacheTtl;
      store.SaveResult(now, id);
      var updated := store.Update(now, id, (job: Job) =>
        var done := job.(status := Completed, progress := 100);
        if video.Some? then done.(cachePath := video, videoExpireAt := Some(expireAt)) else done);
      if video.Some? {
        store.ScheduleVideoExpiration(id, expireAt);
      }
    }

    method HandleFailure(now: Time, id: JobId, video: Option<Path>)
      requires Recoverable(store.View(), now, id) && store.ttl > 0
      modifies store
      ensures var job := old(store.View()).jobs[id].value;
        && store.jobs == old(store.jobs)[id := Entry(
             if video.None? then job.(status := Failed, progress := 100, updatedAt := now)
             else if settings.failedTtl > 0 then
               job.(status := Failed, progress := 100, updatedAt := now, cachePath := video,
                    videoExpireAt := Some(now + settings.failedTtl))
             else
               job.(status := Failed, progress := 100, updatedAt := now, cachePath := None, videoExpireAt := None),
             now + store.ttl)]
      ensures store.active == ActiveIds(old(store.View()), now) - {id}
      ensures store.activeExpires == old(store.activeExpires) && store.results == old(store.results)
      ensures store.videoExpire ==
                if video.None? then old(store.videoExpire)
                else if settings.failedTtl > 0 then old(store.videoExpire)[id := now + settings.failedTtl]
                else old(store.videoExpire) - {id}
    {
      var updated := store.Update(now, id, (job: Job) => job.(status := Failed, progress := 100));
      if video.None? {
        return;
      }
      if settings.failedTtl > 0 {
        var expireAt := now + settings.failedTtl;
        updated := store.Update(now, id, (job: Job) => job.(cachePath := video, videoExpireAt := Some(expireAt)));
        store.ScheduleVideoExpiration(id, expireAt);
        return;
      }
      updated := store.ClearVideoCache(now, id);
    }
  }
}

/**
 The Redis-backed job store of the analysis service: job records and results that expire, the set of
 active jobs with an expiry of its own, and the schedule of cached videos to delete.
 `now` is the server's clock; a key is visible strictly before its expiry.
 */
module JobStore {
  import opened Wrappers

  type JobId = nat
  type Time = nat
  type Path = string

  const MIN_TTL: nat := 60
  const SWEEP_LIMIT: nat := 100

  datatype Status = Queued | Processing | Completed | Failed | Cancelled

  predicate Terminal(st: Status) { st == Completed || st == Failed || st == Cancelled }

  datatype Job = Job(
    status: Status, progress: nat, createdAt: Time, updatedAt: Time,
    cachePath: Option<Path>, videoExpireAt: Option<Time>)

  datatype Entry<+T> = Entry(value: T, expires: Time)

  datatype Redis = Redis(
    jobs: map<JobId, Entry<Job>>,
    results: map<JobId, Time>,
    active: set<JobId>,
    activeExpires: Time,
    videoExpire: map<JobId, Time>)

  function Empty(): Redis { Redis(map[], map[], {}, 0, map[]) }

  function Ttl(configured: int): nat {
    if configured < MIN_TTL then MIN_TTL else configured
  }

  predicate Live(r: Redis, now: Time, id: JobId) {
    id in r.jobs && now < r.jobs[id].expires
  }

  function Get(r: Redis, now: Time, id: JobId): Option<Job> {
    if Live(r, now, id) then Some(r.jobs[id].value) else None
  }

  /** Members of the active set; the whole set vanishes when its key expires. */
  function ActiveIds(r: Redis, now: Time): set<JobId> {
    if now < r.activeExpires then r.active else {}
  }

  function NewJob(now: Time): Job {
    Job(Queued, 0, now, now, None, None)
  }

  /** The write half of create and update: record, active set and expiries in one transaction. */
  function Put(r: Redis, ttl: nat, now: Time, id: JobId, job: Job): Redis {
    var jobs := r.jobs[id := Entry(job, now + ttl)];
    if Terminal(job.status) then
      r.(jobs := jobs, active := ActiveIds(r, now) - {id})
    else
      r.(jobs := jobs, active := ActiveIds(r, now) + {id}, activeExpires := now + ttl)
  }

  /** What restart recovery relies on: every visible unfinished job is in the active set, and the set
      outlives it. */
  ghost predicate Indexed(r: Redis, now: Time) {
    forall id :: Live(r, now, id) && !Terminal(r.jobs[id].value.status) ==>
      id in r.active && r.jobs[id].expires <= r.activeExpires
  }

  /** No expiry lies further ahead than one full lifetime from now. */
  ghost predicate Bounded(r: Redis, ttl: nat, now: Time) {
    && r.activeExpires <= now + ttl
    && forall id :: id in r.jobs ==> r.jobs[id].expires <= now + ttl
  }

  predicate Recoverable(r: Redis, now: Time, id: JobId) {
    Live(r, now, id) && !Terminal(r.jobs[id].value.status)
  }

  lemma PutKeepsIndex(r: Redis, ttl: nat, now: Time, id: JobId, job: Job)
    requires Indexed(r, now) && Bounded(r, ttl, now)
    ensures Indexed(Put(r, ttl, now, id, job), now) && Bounded(Put(r, ttl, now, id, job), ttl, now)
  {
    var t := Put(r, ttl, now, id, job);
    forall k | Live(t, now, k) && !Terminal(t.jobs[k].value.status)
      ensures k in t.active && t.jobs[k].expires <= t.activeExpires
    {
      if k != id {
        assert Live(r, now, k);
      }
    }
  }

  lemma TimeKeepsIndex(r: Redis, ttl: nat, now: Time, later: Time)
    requires Indexed(r, now) && Bounded(r, ttl, now) && now <= later
    ensures Indexed(r, later) && Bounded(r, ttl, later)
  {
    assert forall id :: Live(r, later, id) ==> Live(r, now, id);
  }

  /** Where a job goes in a list that is ordered by age. */
  function AgeIndex(r: Redis, id: JobId, ids: seq<JobId>): (k: nat)
    requires id in r.jobs && forall i :: 0 <= i < |ids| ==> ids[i] in r.jobs
    ensures k <= |ids|
    ensures forall i :: 0 <= i < k ==> r.jobs[ids[i]].value.createdAt < r.jobs[id].value.createdAt
    ensures k < |ids| ==> r.jobs[id].value.createdAt <= r.jobs[ids[k]].value.createdAt
  {
    if ids == [] || r.jobs[id].value.createdAt <= r.jobs[ids[0]].value.createdAt then 0
    else 1 + AgeIndex(r, id, ids[1..])
  }

  function InsertByAge(r: Redis, id: JobId, ids: seq<JobId>): seq<JobId>
    requires id in r.jobs && forall i :: 0 <= i < |ids| ==> ids[i] in r.jobs
  {
    var k := AgeIndex(r, id, ids);
    ids[..k] + [id] + ids[k..]
  }

  lemma InsertKeepsAge(r: Redis, id: JobId, ids: seq<JobId>)
    requires id in r.jobs && forall i :: 0 <= i < |ids| ==> ids[i] in r.jobs
    requires ByAge(r, ids)
    ensures ByAge(r, InsertByAge(r, id, ids))
  {
    var k := AgeIndex(r, id, ids);
    var out := InsertByAge(r, id, ids);
    forall i, j | 0 <= i < j < |out|
      ensures r.jobs[out[i]].value.createdAt <= r.jobs[out[j]].value.createdAt
    {
      var a := if i < k then i else i - 1;
      var b := if j < k then j else j - 1;
      if j == k {
        assert out[i] == ids[a];
      } else if i == k {
        assert out[j] == ids[b] && k <= b && (k == b || r.jobs[ids[k]].value.createdAt <= r.jobs[ids[b]].value.createdAt);
      } else {
        assert out[i] == ids[a] && out[j] == ids[b];
      }
    }
  }

  lemma InsertKeepsIds(r: Redis, id: JobId, ids: seq<JobId>)
    requires id in r.jobs && id !in ids && forall i :: 0 <= i < |ids| ==> ids[i] in r.jobs
    requires forall i, j :: 0 <= i < j < |ids| ==> ids[i] != ids[j]
    ensures
      var out := InsertByAge(r, id, ids);
      && (forall i, j :: 0 <= i < j < |out| ==> out[i] != out[j])
      && (forall k :: k in out <==> k in ids || k == id)
  {
    var k := AgeIndex(r, id, ids);
    assert ids == ids[..k] + ids[k..];
  }

  predicate ByAge(r: Redis, ids: seq<JobId>) {
    forall i, j :: 0 <= i < j < |ids| && ids[i] in r.jobs && ids[j] in r.jobs ==>
      r.jobs[ids[i]].value.createdAt <= r.jobs[ids[j]].value.createdAt
  }

  /** Which lists a recovery scan may return: the recoverable active ids, each once, oldest first. */
  ghost predicate IsScan(r: Redis, now: Time, ids: seq<JobId>) {
    && ByAge(r, ids)
    && (forall i, j :: 0 <= i < j < |ids| ==> ids[i] != ids[j])
    && (forall id :: id in ids <==> id in ActiveIds(r, now) && Recoverable(r, now, id))
  }

  /** Restart recovery is exact: a scan returns precisely the unexpired unfinished jobs. */
  lemma ScanIsExact(r: Redis, now: Time, ids: seq<JobId>)
    requires Indexed(r, now) && IsScan(r, now, ids)
    ensures forall id :: id in ids <==> Recoverable(r, now, id)
  {
    forall id | Recoverable(r, now, id) ensures id in ids {
      assert id in ActiveIds(r, now);
    }
  }

  predicate Due(r: Redis, before: Time, id: JobId) {
    id in r.videoExpire && r.videoExpire[id] <= before
  }

  /** Which lists a cleanup may get: due entries, each once, earliest first, all of them unless the list is full. */
  ghost predicate IsSweep(r: Redis, before: Time, ids: seq<JobId>) {
    && |ids| <= SWEEP_LIMIT
    && (forall i, j :: 0 <= i < j < |ids| ==> ids[i] != ids[j])
    && (forall i :: 0 <= i < |ids| ==> Due(r, before, ids[i]))
    && (forall i, j :: 0 <= i < j < |ids| ==> DueBy(r, ids[i]) <= DueBy(r, ids[j]))
    && (forall id :: Due(r, before, id) && id !in ids ==> |ids| == SWEEP_LIMIT && DueBy(r, ids[|ids| - 1]) <= DueBy(r, id))
  }

  function DueBy(r: Redis, id: JobId): Time { if id in r.videoExpire then r.videoExpire[id] else 0 }

  class Store {
    const ttl: nat
    var jobs: map<JobId, Entry<Job>>
    var results: map<JobId, Time>
    var active: set<JobId>
    var activeExpires: Time
    var videoExpire: map<JobId, Time>

    function View(): Redis
      reads this
    {
      Redis(jobs, results, active, activeExpires, videoExpire)
    }

    constructor (configuredTtl: int)
      ensures ttl == Ttl(configuredTtl) && View() == Empty()
    {
      ttl := if configuredTtl < MIN_TTL then MIN_TTL else configuredTtl;
      jobs, results, active, activeExpires, videoExpire := map[], map[], {}, 0, map[];
    }

    method Write(now: Time, id: JobId, job: Job)
      modifies this
      ensures View() == Put(old(View()), ttl, now, id, job)
      ensures jobs == old(jobs)[id := Entry(job, now + ttl)]
      ensures forall k :: k in active <==>
                if k == id then !Terminal(job.status) else k in old(active) && now < old(activeExpires)
      ensures activeExpires == if Terminal(job.status) then old(activeExpires) else now + ttl
      ensures results == old(results) && videoExpire == old(videoExpire)
    {
      jobs := jobs[id := Entry(job, now + ttl)];
      if !(now < activeExpires) {
        active := {};
      }
      if job.status == Completed || job.status == Failed || job.status == Cancelled {
        active := active - {id};
      } else {
        active := active + {id};
        activeExpires := now + ttl;
      }
    }

    method Create(now: Time, id: JobId)
      modifies this
      ensures View() == Put(old(View()), ttl, now, id, NewJob(now))
      ensures jobs == old(jobs)[id := Entry(Job(Queued, 0, now, now, None, None), now + ttl)]
      ensures id in active && activeExpires == now + ttl
    {
      Write(now, id, NewJob(now));
    }

    method Read(now: Time, id: JobId) returns (job: Option<Job>)
      ensures job == Get(View(), now, id)
    {
      job := if id in jobs && now < jobs[id].expires then Some(jobs[id].value) else None;
    }

    /** An update with nobody in between its read and its write. */
    method Update(now: Time, id: JobId, patch: Job -> Job) returns (updated: Option<Job>)
      modifies this
      ensures Get(old(View()), now, id).None? ==> updated.None? && View() == old(View())
      ensures Get(old(View()), now, id).Some? ==>
                var job := patch(Get(old(View()), now, id).value).(updatedAt := now);
                updated == Some(job) && View() == Put(old(View()), ttl, now, id, job)
    {
      var current := Read(now, id);
      if current.None? {
        return None;
      }
      var job := patch(current.value).(updatedAt := now);
      Write(now, id, job);
      updated := Some(job);
    }

    method SaveResult(now: Time, id: JobId)
      modifies this`results
      ensures View() == old(View()).(results := old(results)[id := now + ttl])
    {
      results := results[id := now + ttl];
    }

    method ListRecoverableJobs(now: Time) returns (ids: seq<JobId>)
      ensures IsScan(View(), now, ids)
    {
      var todo := if now < activeExpires then active else {};
      ids := [];
      while todo != {}
        invariant todo <= ActiveIds(View(), now)
        invariant forall i :: 0 <= i < |ids| ==> ids[i] in jobs
        invariant forall id :: id in ids <==> id in ActiveIds(View(), now) - todo && Recoverable(View(), now, id)
        invariant forall i, j :: 0 <= i < j < |ids| ==> ids[i] != ids[j]
        invariant ByAge(View(), ids)
        decreases todo
      {
        var id :| id in todo;
        todo := todo - {id};
        var job := Read(now, id);
        if job.Some? && (job.value.status == Queued || job.value.status == Processing) {
          InsertKeepsAge(View(), id, ids);
          InsertKeepsIds(View(), id, ids);
          ids := InsertByAge(View(), id, ids);
        }
      }
    }

    method ScheduleVideoExpiration(id: JobId, expireAt: Time)
      modifies this`videoExpire
      ensures View() == old(View()).(videoExpire := old(videoExpire)[id := expireAt])
    {
      videoExpire := videoExpire[id := expireAt];
    }

    method ListExpiredVideoJobs(before: Time) returns (ids: seq<JobId>)
      ensures IsSweep(View(), before, ids)
    {
      var todo := set id | id in videoExpire && videoExpire[id] <= before;
      ids := [];
      while todo != {} && |ids| < SWEEP_LIMIT
        invariant |ids| <= SWEEP_LIMIT
        invariant forall id :: Due(View(), before, id) <==> id in todo || id in ids
        invariant forall id :: id in todo ==> id !in ids
        invariant forall i, j :: 0 <= i < j < |ids| ==> ids[i] != ids[j]
        invariant forall i, j :: 0 <= i < j < |ids| ==> DueBy(View(), ids[i]) <= DueBy(View(), ids[j])
        invariant forall i, id :: 0 <= i < |ids| && id in todo ==> DueBy(View(), ids[i]) <= DueBy(View(), id)
        decreases todo
      {
        var first := Earliest(todo);
        todo := todo - {first};
        ids := ids + [first];
      }
    }

    method Earliest(ids: set<JobId>) returns (first: JobId)
      requires ids != {} && forall id :: id in ids ==> id in videoExpire
      ensures first in ids && forall id :: id in ids ==> DueBy(View(), first) <= DueBy(View(), id)
    {
      first :| first in ids;
      var rest := ids - {first};
      while rest != {}
        invariant first in ids && rest <= ids
        invariant forall id :: id in ids && id !in rest ==> DueBy(View(), first) <= DueBy(View(), id)
        decreases rest
      {
        var id :| id in rest;
        rest := rest - {id};
        if videoExpire[id] < videoExpire[first] {
          first := id;
        }
      }
    }

    method ClearVideoCache(now: Time, id: JobId) returns (updated: Option<Job>)
      modifies this
      ensures videoExpire == old(videoExpire) - {id}
      ensures Get(old(View()), now, id).None? ==>
                updated.None? && View() == old(View()).(videoExpire := old(videoExpire) - {id})
      ensures Get(old(View()), now, id).Some? ==>
                var job := Get(old(View()), now, id).value.(cachePath := None, videoExpireAt := None, updatedAt := now);
                updated == Some(job) &&
                View() == Put(old(View()), ttl, now, id, job).(videoExpire := old(videoExpire) - {id})
    {
      updated := Update(now, id, (job: Job) => job.(cachePath := None, videoExpireAt := None));
      videoExpire := videoExpire - {id};
    }
  }

  /** A result does not outlive its job for ever: clearing the cached video renews the job's lifetime and
      not the result's. With save, completion and clearing at t0 <= t1 <= t2, at any time while the job
      is still visible its result is gone exactly from t0 + ttl on. */
  lemma ResultExpiresFirst(r: Redis, ttl: nat, id: JobId, job: Job, t0: Time, t1: Time, t2: Time, now: Time)
    requires job.status == Completed && t0 <= t1 <= t2 <= now && t2 < t1 + ttl && now < t2 + ttl
    ensures
      var saved := r.(results := r.results[id := t0 + ttl]);
      var done := Put(saved, ttl, t1, id, job);
      var cleared := Put(done, ttl, t2, id, Get(done, t2, id).value.(cachePath := None, videoExpireAt := None));
      && Get(done, t2, id).Some?
      && Live(cleared, now, id) && cleared.jobs[id].value.status == Completed
      && (now < cleared.results[id] <==> now < t0 + ttl)
  {
  }
}

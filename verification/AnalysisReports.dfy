/**
 The table of task analysis reports and the operations of its repository.
 A row's index is its identity and its creation order, so "newest" is the greatest index.
 */
module AnalysisReports {
  import opened Wrappers

  type TaskId = nat
  type Time = nat

  const BATCH_SIZE: int := 5
  const DEFAULT_LIMIT: int := 10

  datatype Status = Queued | Processing | Ready | Failed

  /** Why a worker gave a report up, one value per failing exit of the worker. */
  datatype Cause =
    | LatestLookup | Superseded | TaskLookup | TaskMissing | NotReady
    | BuildAnalysis | MarshalSnapshot | BuildPdf | Upload

  datatype Report = Report(
    task: TaskId, status: Status,
    startedAt: Option<Time>, generatedAt: Option<Time>, error: Option<Cause>)

  type Table = seq<Report>

  predicate Active(st: Status) { st != Failed }

  /** The newest report of a task. */
  function Latest(rows: Table, task: TaskId): (r: Option<nat>)
    ensures r.None? ==> forall i :: 0 <= i < |rows| ==> rows[i].task != task
    ensures r.Some? ==> r.value < |rows| && rows[r.value].task == task
    ensures r.Some? ==> forall j :: r.value < j < |rows| ==> rows[j].task != task
  {
    if rows == [] then None
    else if rows[|rows| - 1].task == task then Some(|rows| - 1)
    else Latest(rows[..|rows| - 1], task)
  }

  function NewReport(task: TaskId): Report {
    Report(task, Queued, None, None, None)
  }

  /** What one uninterrupted ensure transaction leaves behind: the table, the row it answers with,
      and whether that row is new. */
  function Ensured(rows: Table, task: TaskId): (r: (Table, nat, bool))
    ensures r.1 < |r.0| && r.0[r.1].task == task && Active(r.0[r.1].status)
    ensures rows <= r.0 && |r.0| <= |rows| + 1
    ensures forall j :: r.1 < j < |r.0| ==> r.0[j].task != task
  {
    var latest := Latest(rows, task);
    if latest.Some? && Active(rows[latest.value].status) then (rows, latest.value, false)
    else (rows + [NewReport(task)], |rows|, true)
  }

  function Claimed(rows: Table, id: nat, now: Time): Table
    requires id < |rows|
  {
    rows[id := rows[id].(status := Processing, startedAt := Some(now))]
  }

  function Completed(rows: Table, id: nat, now: Time): Table
    requires id < |rows|
  {
    rows[id := rows[id].(status := Ready, generatedAt := Some(now), error := None)]
  }

  function GivenUp(rows: Table, id: nat, cause: Cause): Table
    requires id < |rows|
  {
    rows[id := rows[id].(status := Failed, error := Some(cause))]
  }

  /** The queued rows from index `from` on, oldest first, at most `limit` of them. */
  function QueuedFrom(rows: Table, from: nat, limit: nat): (ids: seq<nat>)
    requires from <= |rows|
    ensures |ids| <= limit
    ensures forall k :: 0 <= k < |ids| ==> from <= ids[k] < |rows| && rows[ids[k]].status == Queued
    ensures forall j, k :: 0 <= j < k < |ids| ==> ids[j] < ids[k]
    ensures forall i :: from <= i < |rows| && rows[i].status == Queued && i !in ids ==>
              |ids| == limit && forall k :: 0 <= k < |ids| ==> ids[k] < i
    decreases |rows| - from
  {
    if from == |rows| || limit == 0 then []
    else if rows[from].status == Queued then [from] + QueuedFrom(rows, from + 1, limit - 1)
    else QueuedFrom(rows, from + 1, limit)
  }

  function PageLimit(limit: int): nat {
    if limit <= 0 then DEFAULT_LIMIT else limit
  }

  datatype EnsureError = TaskNotFound

  /** The task's last report answers as it is while it is queued, in work or ready; when it has failed, or there is none,
      a queued one is added behind all others and answers. */
  ghost predicate Answers(rows: Table, after: Table, task: TaskId, r: Result<(nat, bool), EnsureError>) {
    if exists i: nat :: Standing(rows, task, i) then
      after == rows && exists i: nat :: Standing(rows, task, i) && r == Ok((i, false))
    else
      && |after| == |rows| + 1 && after[..|rows|] == rows && r == Ok((|rows|, true))
      && after[|rows|].task == task && after[|rows|].status == Queued
      && after[|rows|].startedAt.None? && after[|rows|].generatedAt.None? && after[|rows|].error.None?
  }

  predicate Standing(rows: Table, task: TaskId, i: nat) {
    && i < |rows| && rows[i].task == task && (forall j :: i < j < |rows| ==> rows[j].task != task)
    && (rows[i].status == Queued || rows[i].status == Processing || rows[i].status == Ready)
  }

  lemma EnsuredAnswers(rows: Table, task: TaskId)
    ensures
      var after := Ensured(rows, task);
      Answers(rows, after.0, task, Ok((after.1, after.2)))
  {
    var latest, after := Latest(rows, task), Ensured(rows, task);
    if latest.Some? && Active(rows[latest.value].status) {
      assert Standing(rows, task, latest.value);
    } else {
      assert after.0[..|rows|] == rows;
      if i: nat :| Standing(rows, task, i) {
        assert false;
      }
    }
  }

  /** What a worker's pass makes of the rows: nothing unless the report is queued; otherwise that report is in its
      final state, given up when a newer one of its task exists, and all others are as they were. */
  predicate Passed(rows: Table, after: Table, id: nat, startedAt: Time, outcome: Option<Cause>, generatedAt: Time) {
    if id >= |rows| || rows[id].status != Queued then after == rows
    else
      && |after| == |rows| && (forall i :: 0 <= i < |rows| && i != id ==> after[i] == rows[i])
      && after[id].task == rows[id].task && after[id].startedAt == Some(startedAt)
      && if (exists j :: id < j < |rows| && rows[j].task == rows[id].task) && outcome != Some(LatestLookup) then
           after[id].status == Failed && after[id].error == Some(Superseded) && after[id].generatedAt == rows[id].generatedAt
         else
           && after[id].error == outcome
           && after[id].status == (if outcome.None? then Ready else Failed)
           && after[id].generatedAt == (if outcome.None? then Some(generatedAt) else rows[id].generatedAt)
  }

  lemma NewestIff(rows: Table, id: nat)
    requires id < |rows|
    ensures Latest(rows, rows[id].task) != Some(id) <==> exists j :: id < j < |rows| && rows[j].task == rows[id].task
  {
    var latest := Latest(rows, rows[id].task);
    assert latest.Some? && latest.value >= id;
    if latest.value > id {
      assert rows[latest.value].task == rows[id].task;
    }
  }

  /** The repository, over the rows of one database. */
  class Repository {
    var tasks: set<TaskId>
    var rows: Table

    constructor (tasks: set<TaskId>)
      ensures this.tasks == tasks && rows == []
    {
      this.tasks := tasks;
      rows := [];
    }

    method FindLatestAnalysisReportByTaskID(task: TaskId) returns (r: Option<nat>)
      ensures r == Latest(rows, task)
      ensures r.None? <==> forall i :: 0 <= i < |rows| ==> rows[i].task != task
      ensures r.Some? ==> r.value < |rows| && rows[r.value].task == task
      ensures r.Some? ==> forall i :: r.value < i < |rows| ==> rows[i].task != task
    {
      r := Latest(rows, task);
    }

    method EnsureQueuedAnalysisReport(task: TaskId) returns (r: Result<(nat, bool), EnsureError>)
      modifies this`rows
      ensures task !in tasks ==> r == Err(TaskNotFound) && rows == old(rows)
      ensures task in tasks ==>
                var after := Ensured(old(rows), task);
                rows == after.0 && r == Ok((after.1, after.2))
      ensures task in tasks ==> Answers(old(rows), rows, task, r)
    {
      EnsuredAnswers(rows, task);
      if task !in tasks {
        return Err(TaskNotFound);
      }
      var existing := FindLatestAnalysisReportByTaskID(task);
      if existing.Some? {
        var status := rows[existing.value].status;
        if status == Queued || status == Processing || status == Ready {
          return Ok((existing.value, false));
        }
      }
      rows := rows + [NewReport(task)];
      r := Ok((|rows| - 1, true));
    }

    method ClaimAnalysisReport(id: nat, startedAt: Time) returns (claimed: bool)
      modifies this`rows
      ensures claimed == (id < |old(rows)| && old(rows)[id].status == Queued)
      ensures rows == if claimed then Claimed(old(rows), id, startedAt) else old(rows)
      ensures claimed ==>
                && |rows| == |old(rows)| && (forall i :: 0 <= i < |rows| && i != id ==> rows[i] == old(rows)[i])
                && rows[id] == old(rows)[id].(status := Processing, startedAt := Some(startedAt))
    {
      claimed := id < |rows| && rows[id].status == Queued;
      if claimed {
        rows := rows[id := rows[id].(status := Processing, startedAt := Some(startedAt))];
      }
    }

    method ListQueuedAnalysisReports(limit: int) returns (ids: seq<nat>)
      ensures ids == QueuedFrom(rows, 0, PageLimit(limit))
      ensures |ids| <= PageLimit(limit) && forall j, k :: 0 <= j < k < |ids| ==> ids[j] < ids[k]
      ensures forall k :: 0 <= k < |ids| ==> ids[k] < |rows| && rows[ids[k]].status == Queued
      ensures forall i :: 0 <= i < |rows| && rows[i].status == Queued && i !in ids ==>
                |ids| == PageLimit(limit) && forall k :: 0 <= k < |ids| ==> ids[k] < i
    {
      ids := QueuedFrom(rows, 0, PageLimit(limit));
    }

    method FailAnalysisReport(id: nat, cause: Cause)
      modifies this`rows
      ensures rows == if id < |old(rows)| then GivenUp(old(rows), id, cause) else old(rows)
      ensures |rows| == |old(rows)| && forall i :: 0 <= i < |rows| && i != id ==> rows[i] == old(rows)[i]
      ensures id < |rows| ==> rows[id] == old(rows)[id].(status := Failed, error := Some(cause))
    {
      if id < |rows| {
        rows := rows[id := rows[id].(status := Failed, error := Some(cause))];
      }
    }

    /** One worker's pass over a listed report, nobody else running. `outcome` is the first failing
        step between the lookup and the upload, if any. The write at the end is unguarded. */
    method ProcessQueuedReport(id: nat, startedAt: Time, outcome: Option<Cause>, generatedAt: Time)
      returns (claimed: bool)
      requires outcome != Some(Superseded)
      modifies this`rows
      ensures claimed == (id < |old(rows)| && old(rows)[id].status == Queued)
      ensures Passed(old(rows), rows, id, startedAt, outcome, generatedAt)
    {
      claimed := ClaimAnalysisReport(id, startedAt);
      if !claimed {
        return;
      }
      if outcome == Some(LatestLookup) {
        FailAnalysisReport(id, LatestLookup);
        return;
      }
      LatestIgnoresStatus(old(rows), rows, rows[id].task);
      NewestIff(old(rows), id);
      var latest := FindLatestAnalysisReportByTaskID(rows[id].task);
      if latest != Some(id) {
        FailAnalysisReport(id, Superseded);
      } else if outcome.Some? {
        FailAnalysisReport(id, outcome.value);
      } else {
        rows := rows[id := rows[id].(status := Ready, generatedAt := Some(generatedAt), error := None)];
      }
    }
  }

  /** Which report is newest depends on the task column alone. */
  lemma LatestIgnoresStatus(rows: Table, rows': Table, task: TaskId)
    requires |rows| == |rows'|
    requires forall i :: 0 <= i < |rows| ==> rows[i].task == rows'[i].task
    ensures Latest(rows, task) == Latest(rows', task)
  {
    var a, b := Latest(rows, task), Latest(rows', task);
    if a.Some? && b.Some? {
      assert rows'[a.value].task == task && rows[b.value].task == task;
    }
  }

  /** Asking again before anything else happens answers with the same report and adds none. */
  lemma EnsuringTwiceIsOnce(rows: Table, task: TaskId)
    ensures
      var once := Ensured(rows, task);
      Ensured(once.0, task) == (once.0, once.1, false)
  {
    var once := Ensured(rows, task);
    assert Latest(once.0, task) == Some(once.1);
  }
}

/**
 The report queue as a concurrent protocol: any number of API callers and any number of worker
 goroutines, one database statement a step.

 A caller locks its task row, reads the newest report, then inserts or answers and commits. A worker
 takes an id from a queued list that may be stale by the time it acts, claims it with a conditional
 update, looks the newest report up, builds, and finishes with an update that checks nothing.
 */
module AnalysisQueue {
  import opened Wrappers
  import opened AnalysisReports

  type Caller = nat
  type Worker = nat

  datatype Seen = Nothing | Row(id: nat, status: Status)

  datatype CallerPc =
    | Waiting(task: TaskId)
    | Locked(task: TaskId)
    | Decided(task: TaskId, seen: Seen)
    | Answered(id: nat, created: bool)
    | Aborted

  datatype WorkerPc =
    | Holding(id: nat)
    | Claimant(id: nat)
    | Building(id: nat)
    | Failing(id: nat, cause: Cause)
    | Finishing(id: nat)

  /** `claims` is history: which worker claimed each report. */
  datatype State = State(
    now: Time,
    tasks: set<TaskId>,
    rows: Table,
    locks: map<TaskId, Caller>,
    callers: map<Caller, CallerPc>,
    workers: map<Worker, WorkerPc>,
    claims: map<nat, Worker>)

  datatype Event =
    | Call(c: Caller, task: TaskId)
    | Lock(c: Caller)
    | Read(c: Caller)
    | Commit(c: Caller)
    | Abort(c: Caller)
    | Take(w: Worker, id: nat)
    | Claim(w: Worker)
    | CheckLatest(w: Worker, lookupFails: bool)
    | Build(w: Worker, outcome: Option<Cause>)
    | WriteReady(w: Worker)
    | WriteFailed(w: Worker)
    | Crash(w: Worker)

  function Init(tasks: set<TaskId>): State {
    State(0, tasks, [], map[], map[], map[], map[])
  }

  predicate At(s: State, w: Worker, id: nat) {
    w in s.workers && s.workers[w].id == id && !s.workers[w].Holding?
  }

  predicate Enabled(s: State, e: Event) {
    match e
    case Call(c, _) => c !in s.callers
    case Lock(c) =>
      c in s.callers && s.callers[c].Waiting? && s.callers[c].task in s.tasks && s.callers[c].task !in s.locks
    case Read(c) => c in s.callers && s.callers[c].Locked?
    case Commit(c) => c in s.callers && s.callers[c].Decided?
    case Abort(c) => c in s.callers && (s.callers[c].Waiting? || s.callers[c].Locked? || s.callers[c].Decided?)
    case Take(w, id) => w !in s.workers && id in QueuedFrom(s.rows, 0, PageLimit(BATCH_SIZE))
    case Claim(w) => w in s.workers && s.workers[w].Holding? && s.workers[w].id < |s.rows|
    case CheckLatest(w, _) => w in s.workers && s.workers[w].Claimant? && s.workers[w].id < |s.rows|
    case Build(w, outcome) =>
      w in s.workers && s.workers[w].Building? && outcome != Some(Superseded) && outcome != Some(LatestLookup)
    case WriteReady(w) => w in s.workers && s.workers[w].Finishing? && s.workers[w].id < |s.rows|
    case WriteFailed(w) => w in s.workers && s.workers[w].Failing? && s.workers[w].id < |s.rows|
    case Crash(w) => w in s.workers
  }

  function Look(rows: Table, task: TaskId): Seen {
    match Latest(rows, task)
    case None => Nothing
    case Some(id) => Row(id, rows[id].status)
  }

  function Release(s: State, task: TaskId): map<TaskId, Caller> {
    s.locks - {task}
  }

  function Next(s: State, e: Event): State
    requires Enabled(s, e)
  {
    var t := s.(now := s.now + 1);
    match e
    case Call(c, task) => t.(callers := s.callers[c := Waiting(task)])
    case Lock(c) =>
      var task := s.callers[c].task;
      t.(locks := s.locks[task := c], callers := s.callers[c := Locked(task)])
    case Read(c) =>
      var task := s.callers[c].task;
      t.(callers := s.callers[c := Decided(task, Look(s.rows, task))])
    case Commit(c) =>
      var Decided(task, seen) := s.callers[c];
      if seen.Row? && Active(seen.status) then
        t.(locks := Release(s, task), callers := s.callers[c := Answered(seen.id, false)])
      else
        t.(locks := Release(s, task),
           callers := s.callers[c := Answered(|s.rows|, true)],
           rows := s.rows + [NewReport(task)])
    case Abort(c) =>
      t.(locks := if s.callers[c].Waiting? then s.locks else Release(s, s.callers[c].task),
         callers := s.callers[c := Aborted])
    case Take(w, id) => t.(workers := s.workers[w := Holding(id)])
    case Claim(w) =>
      var id := s.workers[w].id;
      if s.rows[id].status == Queued then
        t.(rows := Claimed(s.rows, id, s.now), workers := s.workers[w := Claimant(id)], claims := s.claims[id := w])
      else
        t.(workers := s.workers - {w})
    case CheckLatest(w, lookupFails) =>
      var id := s.workers[w].id;
      t.(workers := s.workers[w :=
        if lookupFails then Failing(id, LatestLookup)
        else if Latest(s.rows, s.rows[id].task) != Some(id) then Failing(id, Superseded)
        else Building(id)])
    case Build(w, outcome) =>
      var id := s.workers[w].id;
      t.(workers := s.workers[w := if outcome.Some? then Failing(id, outcome.value) else Finishing(id)])
    case WriteReady(w) =>
      t.(rows := Completed(s.rows, s.workers[w].id, s.now), workers := s.workers - {w})
    case WriteFailed(w) =>
      t.(rows := GivenUp(s.rows, s.workers[w].id, s.workers[w].cause), workers := s.workers - {w})
    case Crash(w) => t.(workers := s.workers - {w})
  }

  /** `es` runs from `s` to `t`, every event enabled when it happens. */
  predicate Run(s: State, es: seq<Event>, t: State)
    decreases |es|
  {
    if es == [] then s == t else Enabled(s, es[0]) && Run(Next(s, es[0]), es[1..], t)
  }

  // ---- What every step keeps

  ghost predicate Superseding(rows: Table) {
    forall i, j :: 0 <= i < j < |rows| && rows[i].task == rows[j].task ==> rows[i].status == Failed
  }

  predicate WellShaped(r: Report) {
    match r.status
    case Queued => r.startedAt.None? && r.generatedAt.None? && r.error.None?
    case Processing => r.startedAt.Some? && r.generatedAt.None? && r.error.None?
    case Ready =>
      r.startedAt.Some? && r.generatedAt.Some? && r.startedAt.value < r.generatedAt.value && r.error.None?
    case Failed => r.startedAt.Some? && r.generatedAt.None? && r.error.Some? && r.error.value != Superseded
  }

  /** Every row has the shape its status calls for, and is claimed exactly when it has left the queue. */
  ghost predicate ShapesInv(s: State) {
    && (forall i :: 0 <= i < |s.rows| ==> WellShaped(s.rows[i]))
    && (forall i :: 0 <= i < |s.rows| && s.rows[i].startedAt.Some? ==> s.rows[i].startedAt.value < s.now)
    && (forall i :: 0 <= i < |s.rows| ==> (i in s.claims <==> s.rows[i].status != Queued))
    && (forall i :: i in s.claims ==> i < |s.rows|)
  }

  ghost predicate RowsInv(s: State) {
    Superseding(s.rows) && ShapesInv(s)
  }

  /** Only the worker that claimed a report stands at it, and the report is then processing. */
  ghost predicate WorkersInv(s: State) {
    && (forall w :: w in s.workers ==> s.workers[w].id < |s.rows|)
    && (forall w: Worker, id: nat :: At(s, w, id) ==>
          s.rows[id].status == Processing && id in s.claims && s.claims[id] == w)
    && (forall w :: w in s.workers && s.workers[w].Failing? ==> s.workers[w].cause != Superseded)
  }

  predicate InTransaction(pc: CallerPc) { pc.Locked? || pc.Decided? }

  /** A caller inside its transaction holds the lock, and what it read still describes the newest row,
      but for a status that may have moved on from an active one. */
  ghost predicate CallersInv(s: State) {
    && (forall c :: c in s.callers && InTransaction(s.callers[c]) ==>
          s.callers[c].task in s.locks && s.locks[s.callers[c].task] == c)
    && (forall c :: c in s.callers && s.callers[c].Decided? ==> StillNewest(s.rows, s.callers[c].task, s.callers[c].seen))
  }

  predicate StillNewest(rows: Table, task: TaskId, seen: Seen) {
    match seen
    case Nothing => Latest(rows, task).None?
    case Row(id, status) =>
      Latest(rows, task) == Some(id) && (status == Failed ==> rows[id].status == Failed)
  }

  ghost predicate Inv(s: State) {
    RowsInv(s) && WorkersInv(s) && CallersInv(s)
  }

  lemma LatestOfAppended(rows: Table, r: Report, task: TaskId)
    ensures Latest(rows + [r], task) == if r.task == task then Some(|rows|) else Latest(rows, task)
  {
    assert (rows + [r])[..|rows|] == rows;
  }

  lemma RowsChangeByWriters(s: State, e: Event)
    requires Enabled(s, e) && !e.Commit? && !e.Claim? && !e.WriteReady? && !e.WriteFailed?
    ensures Next(s, e).rows == s.rows && Next(s, e).claims == s.claims
  {
  }

  lemma SupersedingStep(s: State, e: Event)
    requires Inv(s) && Enabled(s, e)
    ensures Superseding(Next(s, e).rows)
  {
    if e.Commit? {
      var task, seen := s.callers[e.c].task, s.callers[e.c].seen;
      assert StillNewest(s.rows, task, seen);
      if !(seen.Row? && Active(seen.status)) {
        AppendKeeps(s.rows, task);
      }
    } else if e.Claim? && s.rows[s.workers[e.w].id].status == Queued {
      RewriteKeeps(s.rows, s.workers[e.w].id);
    } else if e.WriteReady? || e.WriteFailed? {
      assert At(s, e.w, s.workers[e.w].id);
      RewriteKeeps(s.rows, s.workers[e.w].id);
    }
  }

  lemma WriteKeepsShapes(s: State, e: Event)
    requires Inv(s) && Enabled(s, e) && (e.WriteReady? || e.WriteFailed?)
    ensures ShapesInv(Next(s, e))
  {
    assert At(s, e.w, s.workers[e.w].id);
  }

  lemma CommitKeepsShapes(s: State, c: Caller)
    requires ShapesInv(s) && Enabled(s, Commit(c))
    ensures ShapesInv(Next(s, Commit(c)))
  {
  }

  lemma ClaimKeepsShapes(s: State, w: Worker)
    requires ShapesInv(s) && Enabled(s, Claim(w))
    ensures ShapesInv(Next(s, Claim(w)))
  {
  }

  lemma ShapesStep(s: State, e: Event)
    requires Inv(s) && Enabled(s, e)
    ensures ShapesInv(Next(s, e))
  {
    if e.WriteReady? || e.WriteFailed? {
      WriteKeepsShapes(s, e);
    } else if e.Commit? {
      CommitKeepsShapes(s, e.c);
    } else if e.Claim? {
      ClaimKeepsShapes(s, e.w);
    } else {
      RowsChangeByWriters(s, e);
      hide WellShaped;
    }
  }

  lemma AppendKeeps(rows: Table, task: TaskId)
    requires Superseding(rows)
    requires Latest(rows, task).Some? ==> rows[Latest(rows, task).value].status == Failed
    ensures Superseding(rows + [NewReport(task)])
  {
  }

  lemma RewriteKeeps(rows: Table, id: nat)
    requires Superseding(rows) && id < |rows| && rows[id].status != Failed
    ensures forall r: Report :: r.task == rows[id].task ==> Superseding(rows[id := r])
  {
  }

  lemma ClaimKeepsOwners(s: State, w: Worker)
    requires Inv(s) && Enabled(s, Claim(w))
    ensures WorkersInv(Next(s, Claim(w)))
  {
    var t := Next(s, Claim(w));
    forall v: Worker, k: nat | At(t, v, k)
      ensures t.rows[k].status == Processing && k in t.claims && t.claims[k] == v
    {
      assert v == w || At(s, v, k);
    }
  }

  lemma WriteKeepsOwners(s: State, e: Event)
    requires Inv(s) && Enabled(s, e) && (e.WriteReady? || e.WriteFailed?)
    ensures WorkersInv(Next(s, e))
  {
    var t := Next(s, e);
    assert At(s, e.w, s.workers[e.w].id);
    forall v: Worker, k: nat | At(t, v, k)
      ensures t.rows[k].status == Processing && k in t.claims && t.claims[k] == v
    {
      assert At(s, v, k);
    }
  }

  lemma LookKeepsOwners(s: State, e: Event)
    requires Inv(s) && Enabled(s, e) && (e.CheckLatest? || e.Build?)
    ensures WorkersInv(Next(s, e))
  {
    var t := Next(s, e);
    var id := s.workers[e.w].id;
    assert At(s, e.w, id);
    assert Latest(s.rows, s.rows[id].task) == Some(id);
    forall v: Worker, k: nat | At(t, v, k)
      ensures t.rows[k].status == Processing && k in t.claims && t.claims[k] == v
    {
      assert At(s, v, k);
    }
  }

  lemma OthersKeepOwners(s: State, e: Event)
    requires WorkersInv(s) && Enabled(s, e)
    requires !e.Claim? && !e.WriteReady? && !e.WriteFailed? && !e.CheckLatest? && !e.Build?
    ensures WorkersInv(Next(s, e))
  {
    var t := Next(s, e);
    forall v: Worker, k: nat | At(t, v, k)
      ensures t.rows[k].status == Processing && k in t.claims && t.claims[k] == v
    {
      assert At(s, v, k);
    }
  }

  lemma WorkersStep(s: State, e: Event)
    requires Inv(s) && Enabled(s, e)
    ensures WorkersInv(Next(s, e))
  {
    if e.Claim? {
      ClaimKeepsOwners(s, e.w);
    } else if e.WriteReady? || e.WriteFailed? {
      WriteKeepsOwners(s, e);
    } else if e.CheckLatest? || e.Build? {
      LookKeepsOwners(s, e);
    } else {
      OthersKeepOwners(s, e);
    }
  }

  lemma LocksStep(s: State, e: Event)
    requires Inv(s) && Enabled(s, e)
    ensures forall d :: d in Next(s, e).callers && InTransaction(Next(s, e).callers[d]) ==>
              Next(s, e).callers[d].task in Next(s, e).locks && Next(s, e).locks[Next(s, e).callers[d].task] == d
  {
    var t := Next(s, e);
    forall d | d in t.callers && InTransaction(t.callers[d])
      ensures t.callers[d].task in t.locks && t.locks[t.callers[d].task] == d
    {
      assert (e.Lock? && d == e.c) || (d in s.callers && InTransaction(s.callers[d]) && s.callers[d].task == t.callers[d].task);
    }
  }

  /** Rows are appended by an inserting commit and rewritten, task kept, by a claim and the two final writes. */
  lemma RowsOnlyGrow(s: State, e: Event)
    requires Inv(s) && Enabled(s, e)
    ensures |s.rows| <= |Next(s, e).rows|
    ensures !e.Commit? ==> |s.rows| == |Next(s, e).rows|
    ensures forall i :: 0 <= i < |s.rows| ==>
              Next(s, e).rows[i].task == s.rows[i].task &&
              (s.rows[i].status == Failed ==> Next(s, e).rows[i] == s.rows[i])
  {
    if e.WriteReady? || e.WriteFailed? {
      assert At(s, e.w, s.workers[e.w].id);
    }
  }

  lemma NewestStep(s: State, e: Event, d: Caller)
    requires Inv(s) && Enabled(s, e)
    requires d in Next(s, e).callers && Next(s, e).callers[d].Decided?
    ensures StillNewest(Next(s, e).rows, Next(s, e).callers[d].task, Next(s, e).callers[d].seen)
  {
    hide WorkersInv, RowsInv;
    var t := Next(s, e);
    if e.Commit? {
      assert d != e.c && s.callers[d].task != s.callers[e.c].task;
      LatestOfAppended(s.rows, NewReport(s.callers[e.c].task), s.callers[d].task);
    } else {
      RowsOnlyGrow(s, e);
      LatestIgnoresStatus(s.rows, t.rows, t.callers[d].task);
    }
  }

  lemma CallersStep(s: State, e: Event)
    requires Inv(s) && Enabled(s, e)
    ensures CallersInv(Next(s, e))
  {
    LocksStep(s, e);
    forall d | d in Next(s, e).callers && Next(s, e).callers[d].Decided?
      ensures StillNewest(Next(s, e).rows, Next(s, e).callers[d].task, Next(s, e).callers[d].seen)
    {
      NewestStep(s, e, d);
    }
  }

  lemma StepKeeps(s: State, e: Event)
    requires Inv(s) && Enabled(s, e)
    ensures Inv(Next(s, e))
  {
    SupersedingStep(s, e);
    ShapesStep(s, e);
    WorkersStep(s, e);
    CallersStep(s, e);
  }

  lemma {:induction false} RunKeeps(s: State, es: seq<Event>, t: State)
    requires Inv(s) && Run(s, es, t)
    ensures Inv(t)
    decreases |es|
  {
    if es != [] {
      StepKeeps(s, es[0]);
      RunKeeps(Next(s, es[0]), es[1..], t);
    }
  }

  lemma {:induction false} RunConcat(s: State, es: seq<Event>, m: State, fs: seq<Event>, t: State)
    requires Run(s, es, m) && Run(m, fs, t)
    ensures Run(s, es + fs, t)
    decreases |es|
  {
    hide Next, Enabled;
    if es == [] {
      assert es + fs == fs;
    } else {
      RunConcat(Next(s, es[0]), es[1..], m, fs, t);
      assert (es + fs)[0] == es[0] && (es + fs)[1..] == es[1..] + fs;
    }
  }

  // ---- What holds in every run

  ghost predicate Reachable(tasks: set<TaskId>, s: State) {
    exists es :: Run(Init(tasks), es, s)
  }

  lemma ReachableInv(tasks: set<TaskId>, s: State)
    requires Reachable(tasks, s)
    ensures Inv(s)
  {
    var es :| Run(Init(tasks), es, s);
    RunKeeps(Init(tasks), es, s);
  }

  lemma ReachableNext(tasks: set<TaskId>, s: State, e: Event)
    requires Reachable(tasks, s) && Enabled(s, e)
    ensures Reachable(tasks, Next(s, e))
  {
    var es :| Run(Init(tasks), es, s);
    assert Run(s, [e], Next(s, e));
    RunConcat(Init(tasks), es, s, [e], Next(s, e));
  }

  /** Every report of a task except its newest is failed, so at most one is queued, processing or ready. */
  lemma OnlyNewestIsActive(tasks: set<TaskId>, s: State, i: nat, j: nat)
    requires Reachable(tasks, s)
    requires i < |s.rows| && j < |s.rows| && s.rows[i].task == s.rows[j].task
    ensures Active(s.rows[i].status) ==> Latest(s.rows, s.rows[i].task) == Some(i)
    ensures Active(s.rows[i].status) && Active(s.rows[j].status) ==> i == j
  {
    ReachableInv(tasks, s);
  }

  /** The lookup after a claim always finds the claimed report newest: no worker ever gives a report up
      as superseded, and no row ever records that. */
  lemma SupersededIsUnreachable(tasks: set<TaskId>, s: State, w: Worker)
    requires Reachable(tasks, s)
    ensures w in s.workers && s.workers[w].Claimant? ==>
              s.workers[w].id < |s.rows| &&
              Latest(s.rows, s.rows[s.workers[w].id].task) == Some(s.workers[w].id)
    ensures w in s.workers && s.workers[w].Failing? ==> s.workers[w].cause != Superseded
    ensures forall i :: 0 <= i < |s.rows| ==> s.rows[i].error != Some(Superseded)
  {
    ReachableInv(tasks, s);
    if w in s.workers && s.workers[w].Claimant? {
      assert At(s, w, s.workers[w].id);
    }
  }

  predicate Allowed(before: Status, after: Status) {
    before == after || (before == Queued && after == Processing) ||
    (before == Processing && (after == Ready || after == Failed))
  }

  lemma OwnerWrites(s: State, e: Event, i: nat)
    requires Inv(s) && Enabled(s, e) && i < |s.rows|
    ensures |s.rows| <= |Next(s, e).rows| && Next(s, e).rows[i].task == s.rows[i].task
    ensures Allowed(s.rows[i].status, Next(s, e).rows[i].status)
    ensures i in s.claims ==> i in Next(s, e).claims && Next(s, e).claims[i] == s.claims[i]
    ensures s.rows[i].status == Processing && Next(s, e).rows[i] != s.rows[i] ==>
              i in s.claims && (e == WriteReady(s.claims[i]) || e == WriteFailed(s.claims[i]))
    ensures s.rows[i].status == Ready || s.rows[i].status == Failed ==> Next(s, e).rows[i] == s.rows[i]
  {
    if e.WriteReady? || e.WriteFailed? {
      assert At(s, e.w, s.workers[e.w].id);
    } else if !e.Commit? && !e.Claim? {
      RowsChangeByWriters(s, e);
    }
  }

  /** One step from any reachable state: statuses move only forwards, a claim is never taken over, and a
      processing report is written by its claimant alone although that write checks nothing. */
  lemma OnlyTheClaimantWrites(tasks: set<TaskId>, s: State, e: Event, i: nat)
    requires Reachable(tasks, s) && Enabled(s, e) && i < |s.rows|
    ensures |s.rows| <= |Next(s, e).rows| && Next(s, e).rows[i].task == s.rows[i].task
    ensures Allowed(s.rows[i].status, Next(s, e).rows[i].status)
    ensures i in s.claims ==> i in Next(s, e).claims && Next(s, e).claims[i] == s.claims[i]
    ensures s.rows[i].status == Processing && Next(s, e).rows[i] != s.rows[i] ==>
              i in s.claims && (e == WriteReady(s.claims[i]) || e == WriteFailed(s.claims[i]))
    ensures s.rows[i].status == Ready || s.rows[i].status == Failed ==> Next(s, e).rows[i] == s.rows[i]
  {
    ReachableInv(tasks, s);
    OwnerWrites(s, e, i);
  }

  function Rank(st: Status): nat {
    match st case Queued => 0 case Processing => 1 case _ => 2
  }

  /** Between any two moments of a run a report keeps its task and its claimant and never goes back; a
      report once ready or failed is never written again. */
  lemma {:induction false} HistoryIsKept(tasks: set<TaskId>, s: State, es: seq<Event>, t: State, i: nat)
    requires Reachable(tasks, s) && Run(s, es, t) && i < |s.rows|
    ensures i < |t.rows| && t.rows[i].task == s.rows[i].task
    ensures Rank(s.rows[i].status) <= Rank(t.rows[i].status)
    ensures Rank(s.rows[i].status) == 2 ==> t.rows[i] == s.rows[i]
    ensures i in s.claims ==> i in t.claims && t.claims[i] == s.claims[i]
    decreases |es|
  {
    if es != [] {
      OnlyTheClaimantWrites(tasks, s, es[0], i);
      ReachableNext(tasks, s, es[0]);
      HistoryIsKept(tasks, Next(s, es[0]), es[1..], t, i);
    }
  }

  /** Whatever happened between a caller's read and its commit, the row it inserts is one that the
      uninterrupted transaction would insert at that instant. */
  lemma InsertAgreesWithTransaction(tasks: set<TaskId>, s: State, c: Caller)
    requires Reachable(tasks, s) && Enabled(s, Commit(c))
    ensures Next(s, Commit(c)).rows != s.rows ==>
              Next(s, Commit(c)).rows == Ensured(s.rows, s.callers[c].task).0
    ensures Next(s, Commit(c)).callers[c].created <==> Next(s, Commit(c)).rows != s.rows
  {
    ReachableInv(tasks, s);
    assert StillNewest(s.rows, s.callers[c].task, s.callers[c].seen);
  }

  /** The commit leaves and answers what the uninterrupted transaction would, if and only if the report it read
      as active, if any, has not failed since. */
  lemma CommitAgreesIff(tasks: set<TaskId>, s: State, c: Caller)
    requires Reachable(tasks, s) && Enabled(s, Commit(c))
    ensures
      var t, seen := Next(s, Commit(c)), s.callers[c].seen;
      (t.rows, t.callers[c].id, t.callers[c].created) == Ensured(s.rows, s.callers[c].task) <==>
        (seen.Row? && Active(seen.status) ==> seen.id < |s.rows| && s.rows[seen.id].status != Failed)
  {
    ReachableInv(tasks, s);
    assert StillNewest(s.rows, s.callers[c].task, s.callers[c].seen);
  }

  /** A claimed report that no worker is at any more. */
  predicate Orphaned(s: State, i: nat) {
    i < |s.rows| && s.rows[i].status == Processing && forall w :: w in s.workers ==> !At(s, w, i)
  }

  lemma OrphanStep(s: State, e: Event, i: nat)
    requires Inv(s) && Enabled(s, e) && Orphaned(s, i)
    ensures Orphaned(Next(s, e), i) && Next(s, e).rows[i] == s.rows[i]
  {
    hide CallersInv, ShapesInv, Superseding, Latest;
  }

  lemma {:induction false} OrphanThrough(s: State, es: seq<Event>, t: State, i: nat)
    requires Inv(s) && Run(s, es, t) && Orphaned(s, i)
    ensures Inv(t) && Orphaned(t, i) && t.rows[i] == s.rows[i]
    decreases |es|
  {
    if es != [] {
      StepKeeps(s, es[0]);
      OrphanStep(s, es[0], i);
      OrphanThrough(Next(s, es[0]), es[1..], t, i);
    }
  }

  /** A report whose worker crashed after claiming it is processing for ever, and every later request for its
      task is answered with it: no new one is ever queued. */
  lemma OrphanBlocksItsTask(tasks: set<TaskId>, s: State, es: seq<Event>, t: State, i: nat)
    requires Reachable(tasks, s) && Run(s, es, t) && Orphaned(s, i)
    ensures i < |t.rows| && t.rows[i] == s.rows[i]
    ensures Ensured(t.rows, s.rows[i].task) == (t.rows, i, false)
  {
    hide WorkersInv, CallersInv, ShapesInv, Run, Next, Enabled;
    ReachableInv(tasks, s);
    OrphanThrough(s, es, t, i);
    assert Latest(t.rows, t.rows[i].task) == Some(i);
  }

  ghost predicate CanFinish(s: State, i: nat) {
    exists es, t :: Run(s, es, t) && i < |t.rows| && t.rows[i].status != Processing
  }

  lemma FinishesLater(s: State, e: Event, i: nat)
    requires Enabled(s, e) && CanFinish(Next(s, e), i)
    ensures CanFinish(s, i)
  {
    var es, t :| Run(Next(s, e), es, t) && i < |t.rows| && t.rows[i].status != Processing;
    assert ([e] + es)[1..] == es;
    assert Run(s, [e] + es, t);
  }

  lemma FinishesNow(s: State, i: nat)
    requires i < |s.rows| && s.rows[i].status != Processing
    ensures CanFinish(s, i)
  {
    assert Run(s, [], s);
  }

  /** The worker at a report can always finish it, in two steps at most. */
  lemma WorkerFinishes(s: State, w: Worker, i: nat)
    requires i < |s.rows| && At(s, w, i)
    ensures CanFinish(s, i)
  {
    match s.workers[w] {
      case Claimant(_) =>
        var t := Next(s, CheckLatest(w, true));
        FinishesNow(Next(t, WriteFailed(w)), i);
        FinishesLater(t, WriteFailed(w), i);
        FinishesLater(s, CheckLatest(w, true), i);
      case Building(_) =>
        var t := Next(s, Build(w, None));
        FinishesNow(Next(t, WriteReady(w)), i);
        FinishesLater(t, WriteReady(w), i);
        FinishesLater(s, Build(w, None), i);
      case Failing(_, _) =>
        FinishesNow(Next(s, WriteFailed(w)), i);
        FinishesLater(s, WriteFailed(w), i);
      case Finishing(_) =>
        FinishesNow(Next(s, WriteReady(w)), i);
        FinishesLater(s, WriteReady(w), i);
    }
  }

  /** A processing report is left processing by every run if and only if no worker is at it. */
  lemma OrphanedIff(tasks: set<TaskId>, s: State, i: nat)
    requires Reachable(tasks, s) && i < |s.rows| && s.rows[i].status == Processing
    ensures Orphaned(s, i) <==> !CanFinish(s, i)
  {
    ReachableInv(tasks, s);
    if w :| w in s.workers && At(s, w, i) {
      WorkerFinishes(s, w, i);
    } else {
      forall es, t | Run(s, es, t) ensures i < |t.rows| && t.rows[i].status == Processing {
        OrphanThrough(s, es, t, i);
      }
    }
  }

  /** The moment in a run where a second caller has read a report that its worker is about to fail. */
  function Overtaken(): State {
    State(10, {7}, [Report(7, Processing, Some(5), None, None)], map[7 := 1],
          map[0 := Answered(0, true), 1 := Decided(7, Row(0, Processing))],
          map[5 := Failing(0, LatestLookup)], map[0 := 5])
  }

  /** A moment before: the first caller's report is claimed and its worker has failed the lookup. */
  function Doomed(): State {
    State(7, {7}, [Report(7, Processing, Some(5), None, None)], map[],
          map[0 := Answered(0, true)], map[5 := Failing(0, LatestLookup)], map[0 := 5])
  }

  function JustClaimed(): State {
    State(6, {7}, [Report(7, Processing, Some(5), None, None)], map[],
          map[0 := Answered(0, true)], map[5 := Claimant(0)], map[0 := 5])
  }

  lemma QueuedIsReached()
    ensures Reachable({7}, State(4, {7}, [NewReport(7)], map[], map[0 := Answered(0, true)], map[], map[]))
  {
    var s0 := Init({7});
    assert Run(s0, [], s0);
    ReachableNext({7}, s0, Call(0, 7));
    var s1 := Next(s0, Call(0, 7));
    ReachableNext({7}, s1, Lock(0));
    var s2 := Next(s1, Lock(0));
    ReachableNext({7}, s2, Read(0));
    var s3 := Next(s2, Read(0));
    ReachableNext({7}, s3, Commit(0));
    assert Next(s3, Commit(0)) == State(4, {7}, [NewReport(7)], map[], map[0 := Answered(0, true)], map[], map[]);
  }

  lemma ClaimedIsReached()
    ensures Reachable({7}, JustClaimed())
  {
    QueuedIsReached();
    var s4 := State(4, {7}, [NewReport(7)], map[], map[0 := Answered(0, true)], map[], map[]);
    ReachableNext({7}, s4, Take(5, 0));
    var s5 := Next(s4, Take(5, 0));
    ReachableNext({7}, s5, Claim(5));
    assert Next(s5, Claim(5)) == JustClaimed();
  }

  /** A worker that crashes straight after its claim leaves such a report. */
  lemma OrphanIsReached()
    ensures exists s :: Reachable({7}, s) && Orphaned(s, 0)
  {
    ClaimedIsReached();
    ReachableNext({7}, JustClaimed(), Crash(5));
    assert Orphaned(Next(JustClaimed(), Crash(5)), 0);
  }

  lemma DoomedIsReached()
    ensures Reachable({7}, Doomed())
  {
    ClaimedIsReached();
    ReachableNext({7}, JustClaimed(), CheckLatest(5, true));
    assert Next(JustClaimed(), CheckLatest(5, true)) == Doomed();
  }

  function LockedByTwo(): State {
    Doomed().(now := 9, locks := map[7 := 1], callers := map[0 := Answered(0, true), 1 := Locked(7)])
  }

  lemma LockedIsReached()
    ensures Reachable({7}, LockedByTwo())
  {
    DoomedIsReached();
    ReachableNext({7}, Doomed(), Call(1, 7));
    var s8 := Next(Doomed(), Call(1, 7));
    ReachableNext({7}, s8, Lock(1));
    assert Next(s8, Lock(1)) == LockedByTwo();
  }

  lemma OvertakenIsReached()
    ensures Reachable({7}, Overtaken())
  {
    LockedIsReached();
    ReachableNext({7}, LockedByTwo(), Read(1));
    assert Next(LockedByTwo(), Read(1)) == Overtaken();
  }

  /** The converse fails: the report a caller is answered with may have failed since it was read, where
      the uninterrupted transaction would have queued a new one. */
  lemma AnswerMayBeStale()
    ensures exists t ::
              && Reachable({7}, t) && 1 in t.callers && t.callers[1] == Answered(0, false)
              && |t.rows| == 1 && t.rows[0].status == Failed
  {
    OvertakenIsReached();
    ReachableNext({7}, Overtaken(), WriteFailed(5));
    var s := Next(Overtaken(), WriteFailed(5));
    ReachableNext({7}, s, Commit(1));
    var t := Next(s, Commit(1));
    assert t.callers[1] == Answered(0, false);
  }
}

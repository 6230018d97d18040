/**
 The report queue's steps put together again: a caller and a worker whom nobody disturbs do in their steps what the
 repository's operations do in one piece.
 */
module QueueRefinement {
  import opened Wrappers
  import opened AnalysisReports
  import opened AnalysisQueue

  lemma Steps(s: State, es: seq<Event>, m: State, e: Event)
    requires Run(s, es, m) && Enabled(m, e)
    ensures Run(s, es + [e], Next(m, e))
  {
    hide Enabled, Next;
    var t := Next(m, e);
    assert [e][1..] == [] && Run(t, [], t) && Run(m, [e], t);
    RunConcat(s, es, m, [e], t);
  }

  /** Ensuring a report: lock, read, commit. */
  lemma CallRefines(s: State, c: Caller, task: TaskId) returns (t: State)
    requires c in s.callers && s.callers[c] == Waiting(task) && task in s.tasks && task !in s.locks
    ensures Run(s, [Lock(c), Read(c), Commit(c)], t)
    ensures t.callers.Keys == s.callers.Keys && t.callers[c].Answered?
    ensures Answers(s.rows, t.rows, task, Ok((t.callers[c].id, t.callers[c].created)))
    ensures t == s.(now := s.now + 3, rows := t.rows, callers := s.callers[c := t.callers[c]])
  {
    EnsuredAnswers(s.rows, task);
    var m := Reads(s, c, task);
    t := Next(m, Commit(c));
    hide Run, Answers;
    Steps(s, [Lock(c), Read(c)], m, Commit(c));
    assert [Lock(c), Read(c)] + [Commit(c)] == [Lock(c), Read(c), Commit(c)];
    assert s.locks[task := c] - {task} == s.locks;
    assert t.callers[c].id == Ensured(s.rows, task).1 && t.callers[c].created == Ensured(s.rows, task).2;
  }

  lemma Reads(s: State, c: Caller, task: TaskId) returns (t: State)
    requires c in s.callers && s.callers[c] == Waiting(task) && task in s.tasks && task !in s.locks
    ensures Run(s, [Lock(c), Read(c)], t)
    ensures t == s.(now := s.now + 2, locks := s.locks[task := c],
                    callers := s.callers[c := Decided(task, Look(s.rows, task))])
  {
    assert Run(s, [], s);
    hide Run, Look;
    var m := Next(s, Lock(c));
    Steps(s, [], s, Lock(c));
    t := Next(m, Read(c));
    Steps(s, [] + [Lock(c)], m, Read(c));
    assert [] + [Lock(c)] + [Read(c)] == [Lock(c), Read(c)];
  }

  /** The steps of a pass over a report that is queued, as far as it gets. */
  function PassOf(w: Worker, outcome: Option<Cause>, superseded: bool): seq<Event> {
    [Claim(w), CheckLatest(w, outcome == Some(LatestLookup))] +
    if superseded || outcome == Some(LatestLookup) then [WriteFailed(w)]
    else [Build(w, outcome), if outcome.Some? then WriteFailed(w) else WriteReady(w)]
  }

  /** The state once a claimed report has been looked up. */
  lemma ClaimsAndLooks(s: State, w: Worker, id: nat, lookupFails: bool) returns (t: State)
    requires w in s.workers && s.workers[w] == Holding(id) && id < |s.rows| && s.rows[id].status == Queued
    ensures Run(s, [Claim(w), CheckLatest(w, lookupFails)], t)
    ensures
      t == s.(now := s.now + 2, claims := t.claims,
              rows := s.rows[id := s.rows[id].(status := Processing, startedAt := Some(s.now))],
              workers := s.workers[w := if lookupFails then Failing(id, LatestLookup)
                                        else if Latest(s.rows, s.rows[id].task) != Some(id) then Failing(id, Superseded)
                                        else Building(id)])
  {
    assert Run(s, [], s);
    hide Run;
    var m := Next(s, Claim(w));
    Steps(s, [], s, Claim(w));
    LatestIgnoresStatus(s.rows, m.rows, s.rows[id].task);
    hide Latest;
    t := Next(m, CheckLatest(w, lookupFails));
    Steps(s, [] + [Claim(w)], m, CheckLatest(w, lookupFails));
    assert [] + [Claim(w)] + [CheckLatest(w, lookupFails)] == [Claim(w), CheckLatest(w, lookupFails)];
  }

  lemma GivesUp(s: State, es: seq<Event>, m: State, w: Worker, id: nat, cause: Cause) returns (t: State)
    requires Run(s, es, m) && w in m.workers && m.workers[w] == Failing(id, cause) && id < |m.rows|
    ensures Run(s, es + [WriteFailed(w)], t)
    ensures t == m.(now := m.now + 1, workers := m.workers - {w},
                    rows := m.rows[id := m.rows[id].(status := Failed, error := Some(cause))])
  {
    hide Run;
    t := Next(m, WriteFailed(w));
    Steps(s, es, m, WriteFailed(w));
  }

  lemma Builds(s: State, es: seq<Event>, m: State, w: Worker, id: nat, outcome: Option<Cause>) returns (t: State)
    requires Run(s, es, m) && w in m.workers && m.workers[w] == Building(id) && id < |m.rows|
    requires outcome != Some(Superseded) && outcome != Some(LatestLookup)
    ensures Run(s, es + [Build(w, outcome)] + [if outcome.Some? then WriteFailed(w) else WriteReady(w)], t)
    ensures t == m.(now := m.now + 2, workers := m.workers - {w},
                    rows := m.rows[id := if outcome.Some? then m.rows[id].(status := Failed, error := outcome)
                                         else m.rows[id].(status := Ready, generatedAt := Some(m.now + 1), error := None)])
  {
    hide Run;
    var n := Next(m, Build(w, outcome));
    assert n == m.(now := m.now + 1,
                   workers := m.workers[w := if outcome.Some? then Failing(id, outcome.value) else Finishing(id)]);
    Steps(s, es, m, Build(w, outcome));
    if outcome.Some? {
      t := GivesUp(s, es + [Build(w, outcome)], n, w, id, outcome.value);
    } else {
      t := Next(n, WriteReady(w));
      Steps(s, es + [Build(w, outcome)], n, WriteReady(w));
    }
    assert t.workers == m.workers - {w};
  }

  /** A worker's pass over a queued report that it has taken from the list. */
  lemma PassRefines(s: State, w: Worker, id: nat, outcome: Option<Cause>) returns (t: State)
    requires w in s.workers && s.workers[w] == Holding(id) && id < |s.rows| && s.rows[id].status == Queued
    requires outcome != Some(Superseded)
    ensures Run(s, PassOf(w, outcome, exists j :: id < j < |s.rows| && s.rows[j].task == s.rows[id].task), t)
    ensures Passed(s.rows, t.rows, id, s.now, outcome, s.now + 3)
    ensures t.workers == s.workers - {w} && t.callers == s.callers && t.locks == s.locks && t.tasks == s.tasks
  {
    var fails := outcome == Some(LatestLookup);
    var superseded := exists j :: id < j < |s.rows| && s.rows[j].task == s.rows[id].task;
    NewestIff(s.rows, id);
    hide Run, Latest, Next, Enabled, Passed;
    if superseded || fails {
      t := PassFails(s, w, id, outcome, superseded);
    } else {
      t := PassBuilds(s, w, id, outcome);
    }
    RowPasses(s.rows, id, s.now, outcome, s.now + 3, t.rows);
  }

  lemma PassFails(s: State, w: Worker, id: nat, outcome: Option<Cause>, superseded: bool) returns (t: State)
    requires w in s.workers && s.workers[w] == Holding(id) && id < |s.rows| && s.rows[id].status == Queued
    requires superseded <==> Latest(s.rows, s.rows[id].task) != Some(id)
    requires superseded || outcome == Some(LatestLookup)
    ensures Run(s, PassOf(w, outcome, superseded), t)
    ensures t.workers == s.workers - {w} && t.callers == s.callers && t.locks == s.locks && t.tasks == s.tasks
    ensures t.rows == s.rows[id := s.rows[id].(
              status := Failed, startedAt := Some(s.now),
              error := Some(if outcome == Some(LatestLookup) then LatestLookup else Superseded))]
  {
    hide Run, Latest, Next, Enabled;
    var fails := outcome == Some(LatestLookup);
    var m := ClaimsAndLooks(s, w, id, fails);
    t := GivesUp(s, [Claim(w), CheckLatest(w, fails)], m, w, id, if fails then LatestLookup else Superseded);
  }

  lemma PassBuilds(s: State, w: Worker, id: nat, outcome: Option<Cause>) returns (t: State)
    requires w in s.workers && s.workers[w] == Holding(id) && id < |s.rows| && s.rows[id].status == Queued
    requires Latest(s.rows, s.rows[id].task) == Some(id)
    requires outcome != Some(Superseded) && outcome != Some(LatestLookup)
    ensures Run(s, PassOf(w, outcome, false), t)
    ensures t.workers == s.workers - {w} && t.callers == s.callers && t.locks == s.locks && t.tasks == s.tasks
    ensures t.rows == s.rows[id :=
              if outcome.Some? then s.rows[id].(status := Failed, startedAt := Some(s.now), error := outcome)
              else s.rows[id].(status := Ready, startedAt := Some(s.now), generatedAt := Some(s.now + 3), error := None)]
  {
    hide Run, Latest, Next, Enabled;
    var m := ClaimsAndLooks(s, w, id, false);
    var es := [Claim(w), CheckLatest(w, false)];
    t := Builds(s, es, m, w, id, outcome);
    assert PassOf(w, outcome, false) == es + [Build(w, outcome)] + [if outcome.Some? then WriteFailed(w) else WriteReady(w)];
  }

  lemma RowPasses(rows: Table, id: nat, startedAt: Time, outcome: Option<Cause>, generatedAt: Time, after: Table)
    requires id < |rows| && rows[id].status == Queued
    requires
      var claimed := rows[id].(status := Processing, startedAt := Some(startedAt));
      var superseded := exists j :: id < j < |rows| && rows[j].task == rows[id].task;
      after == rows[id :=
        if superseded || outcome == Some(LatestLookup) then
          claimed.(status := Failed, error := Some(if outcome == Some(LatestLookup) then LatestLookup else Superseded))
        else if outcome.Some? then claimed.(status := Failed, error := outcome)
        else claimed.(status := Ready, generatedAt := Some(generatedAt), error := None)]
    ensures Passed(rows, after, id, startedAt, outcome, generatedAt)
  {
  }

  /** A report that is no longer queued is let go. */
  lemma LateClaimIsDropped(s: State, w: Worker, id: nat)
    requires w in s.workers && s.workers[w] == Holding(id) && id < |s.rows| && s.rows[id].status != Queued
    ensures Next(s, Claim(w)) == s.(now := s.now + 1, workers := s.workers - {w})
    ensures forall outcome, generatedAt :: Passed(s.rows, Next(s, Claim(w)).rows, id, s.now, outcome, generatedAt)
  {
  }
}

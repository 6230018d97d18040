/**
 The de-duplicating in-memory queue between the API and the worker pool. Its methods give up control
 at every await, so each is modelled by the stretches that run undisturbed: a `get` pops without the
 lock and discards the id under the lock later, when other gets and enqueues may have run in between.
 */
module Dispatcher {
  import opened Wrappers

  type JobId = nat
  type Getter = nat

  /** `adding` is the id whose enqueue holds the lock between the check and the put; `popped` the ids of
      gets that have popped but not discarded. `accepted`, `popOrder` and `returned` are history. */
  datatype State = State(
    queue: seq<JobId>,
    enqueued: set<JobId>,
    adding: Option<JobId>,
    popped: map<Getter, JobId>,
    accepted: seq<JobId>,
    popOrder: seq<JobId>,
    returned: seq<JobId>)

  datatype Event =
    | Refuse(id: JobId)
    | Add(id: JobId)
    | Put
    | Pop(g: Getter)
    | Discard(g: Getter)

  function Init(): State {
    State([], {}, None, map[], [], [], [])
  }

  predicate Enabled(s: State, e: Event) {
    match e
    case Refuse(id) => s.adding.None? && id in s.enqueued
    case Add(id) => s.adding.None? && id !in s.enqueued
    case Put => s.adding.Some?
    case Pop(g) => g !in s.popped && s.queue != []
    case Discard(g) => s.adding.None? && g in s.popped
  }

  function Next(s: State, e: Event): State
    requires Enabled(s, e)
  {
    match e
    case Refuse(_) => s
    case Add(id) => s.(adding := Some(id), enqueued := s.enqueued + {id}, accepted := s.accepted + [id])
    case Put => s.(adding := None, queue := s.queue + [s.adding.value])
    case Pop(g) =>
      s.(queue := s.queue[1..], popped := s.popped[g := s.queue[0]], popOrder := s.popOrder + [s.queue[0]])
    case Discard(g) =>
      var id := s.popped[g];
      s.(popped := s.popped - {g}, enqueued := s.enqueued - {id}, returned := s.returned + [id])
  }

  predicate Run(s: State, es: seq<Event>, t: State)
    decreases |es|
  {
    if es == [] then s == t else Enabled(s, es[0]) && Run(Next(s, es[0]), es[1..], t)
  }

  /** An id that some get has yet to return. */
  predicate Pending(s: State, id: JobId) {
    id in s.queue || id in s.popped.Values || s.adding == Some(id)
  }

  function AddingSeq(s: State): seq<JobId> {
    if s.adding.Some? then [s.adding.value] else []
  }

  /** No id is in two places. */
  ghost predicate Apart(s: State) {
    && (forall i, j :: 0 <= i < j < |s.queue| ==> s.queue[i] != s.queue[j])
    && (forall g, h :: g in s.popped && h in s.popped && g != h ==> s.popped[g] != s.popped[h])
    && (forall g :: g in s.popped ==> s.popped[g] !in s.queue && s.adding != Some(s.popped[g]))
    && (s.adding.Some? ==> s.adding.value !in s.queue)
  }

  /** Nothing is lost or made up between being accepted, popped and returned. */
  ghost predicate Conserved(s: State) {
    && s.accepted == s.popOrder + s.queue + AddingSeq(s)
    && multiset(s.popOrder) == multiset(s.returned) + multiset(s.popped.Values)
  }

  ghost predicate Inv(s: State) {
    Apart(s) && Conserved(s) && forall id :: id in s.enqueued <==> Pending(s, id)
  }

  lemma PopMoves(s: State, g: Getter)
    requires Inv(s) && Enabled(s, Pop(g))
    ensures Next(s, Pop(g)).popped.Values == s.popped.Values + {s.queue[0]} && s.queue[0] !in s.popped.Values
  {
    var t := Next(s, Pop(g));
    assert t.popped[g] == s.queue[0];
    forall v | v in s.popped.Values ensures v in t.popped.Values {
      var h :| h in s.popped && s.popped[h] == v;
      assert t.popped[h] == v;
    }
  }

  lemma PopKeepsApart(s: State, g: Getter)
    requires Apart(s) && Enabled(s, Pop(g))
    ensures Apart(Next(s, Pop(g)))
  {
    assert s.queue == [s.queue[0]] + s.queue[1..];
  }

  lemma PopKeepsConserved(s: State, g: Getter)
    requires Inv(s) && Enabled(s, Pop(g))
    ensures Conserved(Next(s, Pop(g)))
  {
    var t := Next(s, Pop(g));
    PopMoves(s, g);
    PopCounts(s.popOrder, s.popped.Values, s.queue[0]);
    hide Apart, Pending;
    assert t.popOrder + t.queue == s.popOrder + s.queue;
  }

  lemma PopKeeps(s: State, g: Getter)
    requires Inv(s) && Enabled(s, Pop(g))
    ensures Inv(Next(s, Pop(g)))
  {
    PopMoves(s, g);
    PopKeepsApart(s, g);
    PopKeepsConserved(s, g);
    hide Apart, Conserved;
    assert s.queue == [s.queue[0]] + s.queue[1..];
  }

  lemma PopCounts(order: seq<JobId>, values: set<JobId>, id: JobId)
    requires id !in values
    ensures multiset(order + [id]) == multiset(order) + multiset{id}
    ensures multiset(values + {id}) == multiset(values) + multiset{id}
  {
  }

  lemma DiscardKeeps(s: State, g: Getter)
    requires Inv(s) && Enabled(s, Discard(g))
    ensures Inv(Next(s, Discard(g)))
    ensures s.popped[g] !in Next(s, Discard(g)).enqueued
  {
    var t := Next(s, Discard(g));
    var id := s.popped[g];
    assert t.popped.Values == s.popped.Values - {id} by {
      forall v | v in s.popped.Values && v != id ensures v in t.popped.Values {
        var h :| h in s.popped && s.popped[h] == v;
        assert h in t.popped && t.popped[h] == v;
      }
    }
    assert multiset(s.popped.Values) == multiset(t.popped.Values) + multiset{id};
    assert multiset(t.returned) == multiset(s.returned) + multiset{id};
  }

  lemma StepKeeps(s: State, e: Event)
    requires Inv(s) && Enabled(s, e)
    ensures Inv(Next(s, e))
  {
    match e {
      case Refuse(_) =>
      case Add(_) =>
      case Put =>
        var t := Next(s, Put);
        assert t.popOrder + t.queue + AddingSeq(t) == s.popOrder + s.queue + AddingSeq(s);
        assert forall id :: Pending(t, id) <==> Pending(s, id);
      case Pop(g) => PopKeeps(s, g);
      case Discard(g) => DiscardKeeps(s, g);
    }
  }

  lemma {:induction false} RunKeeps(s: State, es: seq<Event>, t: State)
    requires Inv(s) && Run(s, es, t)
    ensures Inv(t) && s.accepted <= t.accepted && s.returned <= t.returned
    decreases |es|
  {
    if es != [] {
      StepKeeps(s, es[0]);
      RunKeeps(Next(s, es[0]), es[1..], t);
    }
  }

  ghost predicate Reachable(s: State) {
    exists es :: Run(Init(), es, s)
  }

  lemma ReachableInv(s: State)
    requires Reachable(s)
    ensures Inv(s)
  {
    var es :| Run(Init(), es, s);
    RunKeeps(Init(), es, s);
  }

  /** In every reachable state no id waits twice, the id set is exactly what is pending, ids come out in
      the order they were accepted, and every accepted id is returned or pending, none twice. */
  lemma QueueIsExact(s: State)
    requires Reachable(s)
    ensures forall i, j :: 0 <= i < j < |s.queue| ==> s.queue[i] != s.queue[j]
    ensures forall id :: id in s.enqueued <==> Pending(s, id)
    ensures s.popOrder <= s.accepted
    ensures multiset(s.accepted) ==
            multiset(s.returned) + multiset(s.popped.Values) + multiset(s.queue) + multiset(AddingSeq(s))
  {
    ReachableInv(s);
  }

  lemma DrainedIsReturned(t: State)
    requires Inv(t) && t.queue == [] && t.popped == map[] && t.adding.None?
    ensures multiset(t.accepted) == multiset(t.returned)
  {
    assert t.popOrder + t.queue + AddingSeq(t) == t.popOrder;
  }

  lemma PendingIsOwed(s: State, id: JobId)
    requires Inv(s) && Pending(s, id)
    ensures multiset(s.accepted)[id] > multiset(s.returned)[id]
  {
    assert multiset(s.accepted) ==
      multiset(s.returned) + multiset(s.popped.Values) + multiset(s.queue) + multiset(AddingSeq(s));
  }

  /** A refusal is never a lost request: an id that is refused, or has been accepted and not yet returned,
      is returned by some get afterwards in every run that drains the queue. */
  lemma NoRequestIsLost(s: State, id: JobId, es: seq<Event>, t: State)
    requires Reachable(s) && Run(s, es, t)
    requires Enabled(s, Refuse(id)) || Pending(s, id)
    requires t.queue == [] && t.popped == map[] && t.adding.None?
    ensures Pending(s, id)
    ensures multiset(t.returned)[id] > multiset(s.returned)[id]
  {
    ReachableInv(s);
    RunKeeps(s, es, t);
    DrainedPays(s, t, id);
  }

  lemma DrainedPays(s: State, t: State, id: JobId)
    requires Inv(s) && Inv(t) && Pending(s, id) && s.accepted <= t.accepted
    requires t.queue == [] && t.popped == map[] && t.adding.None?
    ensures multiset(t.returned)[id] > multiset(s.returned)[id]
  {
    PendingIsOwed(s, id);
    DrainedIsReturned(t);
    hide Inv;
    assert t.accepted == s.accepted + t.accepted[|s.accepted|..];
  }

  /** The object itself. Each method is one undisturbed stretch of the source's coroutines. */
  class InMemoryDispatcher {
    var queue: seq<JobId>
    var enqueued: set<JobId>

    constructor ()
      ensures queue == [] && enqueued == {}
    {
      queue, enqueued := [], {};
    }

    method Enqueue(id: JobId) returns (accepted: bool)
      modifies this
      ensures accepted == (id !in old(enqueued))
      ensures enqueued == old(enqueued) + {id}
      ensures queue == if accepted then old(queue) + [id] else old(queue)
    {
      if id in enqueued {
        return false;
      }
      enqueued := enqueued + {id};
      queue := queue + [id];
      accepted := true;
    }

    method Pop() returns (id: JobId)
      requires queue != []
      modifies this`queue
      ensures [id] + queue == old(queue)
    {
      id := queue[0];
      queue := queue[1..];
    }

    method Discard(id: JobId)
      modifies this`enqueued
      ensures enqueued == old(enqueued) - {id}
    {
      enqueued := enqueued - {id};
    }
  }

  /** The object's methods are steps of the protocol: an accepted enqueue is `Add` then `Put`. */
  lemma EnqueueIsAddThenPut(s: State, id: JobId)
    requires Inv(s) && s.adding.None?
    ensures id in s.enqueued ==> Enabled(s, Refuse(id)) && Next(s, Refuse(id)) == s
    ensures id !in s.enqueued ==>
              && Enabled(s, Add(id)) && Enabled(Next(s, Add(id)), Put)
              && Next(Next(s, Add(id)), Put).queue == s.queue + [id]
              && Next(Next(s, Add(id)), Put).enqueued == s.enqueued + {id}
              && Next(Next(s, Add(id)), Put).adding.None?
  {
  }
}

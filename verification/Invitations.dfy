/**
 Scorer relations of tasks and the invitations that make them accepted, written by operations of several
 statements each, which interleave and may stop between any two. Relation rows are looked up by task and
 scorer; nothing here relies on there being one row only.
 */
module Invitations {
  import opened Wrappers

  type Time = nat
  type TaskId = nat
  type ScorerId = nat
  type Proc = nat

  const INVITATION_TTL: nat := 7 * 24 * 3600

  datatype RelationStatus = Pending | Accepted | Inactive

  datatype Relation = Relation(task: TaskId, scorer: ScorerId, status: RelationStatus, acceptedAt: Option<Time>)

  datatype InvitationStatus = Sent | Responded | Expired | Cancelled

  /** `Responded` is the status that the source calls accepted. */
  datatype Invitation = Invitation(
    task: TaskId, scorer: ScorerId, status: InvitationStatus, expiresAt: Time, respondedAt: Option<Time>)

  /** Where an operation stands, with what it has read. `at` is the one clock reading it uses throughout. */
  datatype Pc =
    | Accepting(inv: nat, seen: InvitationStatus)
    | InTime(inv: nat, seen: InvitationStatus, at: Time)
    | Answering(inv: nat, at: Time, rel: nat)
    | Confirming(inv: nat, at: Time, rel: nat)
    | Notifying(task: TaskId, scorer: ScorerId)
    | Relating(task: TaskId, scorer: ScorerId, found: Option<nat>, was: RelationStatus)
    | Inviting(task: TaskId, scorer: ScorerId)
    | Resending(task: TaskId, scorer: ScorerId, rel: nat, was: RelationStatus)
    | Reopening(rel: nat)
    | Expiring(task: TaskId, scorer: ScorerId, rel: nat)
    | Closing(rel: nat)

  datatype State = State(now: Time, relations: seq<Relation>, invitations: seq<Invitation>, procs: map<Proc, Pc>)

  datatype Event =
    | Tick(later: Time)
    | BeginAccept(p: Proc, inv: nat)
    | BeginNotify(p: Proc, task: TaskId, scorer: ScorerId)
    | BeginResend(p: Proc, rel: nat)
    | BeginExpire(p: Proc, rel: nat)
    | Remove(task: TaskId, scorer: ScorerId)
    | Look(p: Proc, found: Option<nat>)
    | Step(p: Proc)
    | Crash(p: Proc)

  function Init(): State { State(0, [], [], map[]) }

  /** `found` is a row of that task and scorer, or none when there is none. */
  predicate Finds(relations: seq<Relation>, task: TaskId, scorer: ScorerId, found: Option<nat>) {
    match found
    case Some(i) => i < |relations| && relations[i].task == task && relations[i].scorer == scorer
    case None => forall i :: 0 <= i < |relations| ==> !(relations[i].task == task && relations[i].scorer == scorer)
  }

  predicate Enabled(s: State, e: Event) {
    match e
    case Tick(later) => s.now < later
    case BeginAccept(p, inv) => p !in s.procs && inv < |s.invitations|
    case BeginNotify(p, _, _) => p !in s.procs
    case BeginResend(p, rel) => p !in s.procs && rel < |s.relations| && s.relations[rel].status != Inactive
    case BeginExpire(p, rel) => p !in s.procs && rel < |s.relations| && s.relations[rel].status == Pending
    case Remove(_, _) => true
    case Look(p, found) =>
      p in s.procs &&
      match s.procs[p] {
        case InTime(inv, _, _) =>
          inv < |s.invitations| && Finds(s.relations, s.invitations[inv].task, s.invitations[inv].scorer, found)
        case Notifying(task, scorer) => Finds(s.relations, task, scorer, found)
        case _ => false
      }
    case Step(p) => p in s.procs && !s.procs[p].InTime? && !s.procs[p].Notifying? && InRange(s, s.procs[p])
    case Crash(p) => p in s.procs
  }

  predicate InRange(s: State, pc: Pc) {
    match pc
    case Accepting(inv, _) => inv < |s.invitations|
    case InTime(inv, _, _) => inv < |s.invitations|
    case Answering(inv, _, rel) => inv < |s.invitations| && rel < |s.relations|
    case Confirming(inv, _, rel) => inv < |s.invitations| && rel < |s.relations|
    case Notifying(_, _) => true
    case Relating(_, _, found, _) => found.Some? ==> found.value < |s.relations|
    case Inviting(_, _) => true
    case Resending(_, _, rel, _) => rel < |s.relations|
    case Reopening(rel) => rel < |s.relations|
    case Expiring(_, _, rel) => rel < |s.relations|
    case Closing(rel) => rel < |s.relations|
  }

  function NewInvitation(task: TaskId, scorer: ScorerId, now: Time): Invitation {
    Invitation(task, scorer, Sent, now + INVITATION_TTL, None)
  }

  function WithStatus(relations: seq<Relation>, rel: nat, status: RelationStatus, acceptedAt: Option<Time>): seq<Relation>
    requires rel < |relations|
  {
    relations[rel := relations[rel].(status := status, acceptedAt := acceptedAt)]
  }

  function Deactivated(relations: seq<Relation>, task: TaskId, scorer: ScorerId): seq<Relation> {
    seq(|relations|, i requires 0 <= i < |relations| =>
      if relations[i].task == task && relations[i].scorer == scorer then relations[i].(status := Inactive)
      else relations[i])
  }

  function CancelSent(invitations: seq<Invitation>, task: TaskId, scorer: ScorerId): seq<Invitation> {
    seq(|invitations|, i requires 0 <= i < |invitations| =>
      if invitations[i].task == task && invitations[i].scorer == scorer && invitations[i].status == Sent
      then invitations[i].(status := Cancelled) else invitations[i])
  }

  function Done(s: State, p: Proc): State { s.(procs := s.procs - {p}) }

  function Goto(s: State, p: Proc, pc: Pc): State { s.(procs := s.procs[p := pc]) }

  function Next(s: State, e: Event): State
    requires Enabled(s, e)
  {
    match e
    case Tick(later) => s.(now := later)
    case BeginAccept(p, inv) => Goto(s, p, Accepting(inv, s.invitations[inv].status))
    case BeginNotify(p, task, scorer) => Goto(s, p, Notifying(task, scorer))
    case BeginResend(p, rel) =>
      Goto(s, p, Resending(s.relations[rel].task, s.relations[rel].scorer, rel, s.relations[rel].status))
    case BeginExpire(p, rel) => Goto(s, p, Expiring(s.relations[rel].task, s.relations[rel].scorer, rel))
    case Remove(task, scorer) => s.(relations := Deactivated(s.relations, task, scorer))
    case Look(p, found) => Looked(s, p, found)
    case Step(p) => Stepped(s, p)
    case Crash(p) => Done(s, p)
  }

  function Looked(s: State, p: Proc, found: Option<nat>): State
    requires Enabled(s, Look(p, found))
  {
    match s.procs[p]
    case InTime(inv, seen, at) =>
      if found.None? || s.relations[found.value].status == Inactive then Done(s, p)
      else if seen == Responded || s.relations[found.value].status == Accepted then Done(s, p)
      else Goto(s, p, Answering(inv, at, found.value))
    case Notifying(task, scorer) =>
      Goto(s, p, Relating(task, scorer, found, if found.Some? then s.relations[found.value].status else Pending))
  }

  function Stepped(s: State, p: Proc): State
    requires Enabled(s, Step(p))
  {
    match s.procs[p]
    case Accepting(inv, seen) =>
      if seen == Cancelled then Done(s, p)
      else if s.invitations[inv].expiresAt < s.now then
        Done(s.(invitations := s.invitations[inv := s.invitations[inv].(status := Expired)]), p)
      else Goto(s, p, InTime(inv, seen, s.now))
    case Answering(inv, at, rel) =>
      Goto(s.(invitations := s.invitations[inv := s.invitations[inv].(status := Responded, respondedAt := Some(at))]),
           p, Confirming(inv, at, rel))
    case Confirming(inv, at, rel) =>
      Done(s.(relations := WithStatus(s.relations, rel, Accepted, Some(at))), p)
    case Relating(task, scorer, found, was) =>
      var related :=
        if found.None? then s.(relations := s.relations + [Relation(task, scorer, Pending, None)])
        else if was != Accepted then s.(relations := WithStatus(s.relations, found.value, Pending, None))
        else s;
      Goto(related, p, Inviting(task, scorer))
    case Inviting(task, scorer) =>
      Done(s.(invitations := s.invitations + [NewInvitation(task, scorer, s.now)]), p)
    case Resending(task, scorer, rel, was) =>
      var sent := s.(invitations := s.invitations + [NewInvitation(task, scorer, s.now)]);
      if was != Accepted then Goto(sent, p, Reopening(rel)) else Done(sent, p)
    case Reopening(rel) => Done(s.(relations := WithStatus(s.relations, rel, Pending, None)), p)
    case Expiring(task, scorer, rel) =>
      Goto(s.(invitations := CancelSent(s.invitations, task, scorer)), p, Closing(rel))
    case Closing(rel) =>
      Done(s.(relations := WithStatus(s.relations, rel, Inactive, s.relations[rel].acceptedAt)), p)
  }

  /** The open invitations of a task and a scorer are cancelled, and nothing else happens to any invitation. */
  predicate OwnCancelled(before: seq<Invitation>, after: seq<Invitation>, task: TaskId, scorer: ScorerId) {
    && |after| == |before|
    && (forall i :: 0 <= i < |before| && (before[i].task != task || before[i].scorer != scorer) ==> after[i] == before[i])
    && (forall i :: 0 <= i < |before| && before[i].status != Sent ==> after[i] == before[i])
    && (forall i :: 0 <= i < |before| && before[i].task == task && before[i].scorer == scorer && before[i].status == Sent ==>
          && after[i].status == Cancelled && after[i].task == task && after[i].scorer == scorer
          && after[i].expiresAt == before[i].expiresAt && after[i].respondedAt == before[i].respondedAt)
  }

  /** One relation's status and acceptance date are set, and nothing else happens to any relation. */
  predicate OneRelationSet(
      before: seq<Relation>, after: seq<Relation>, rel: nat, status: RelationStatus, acceptedAt: Option<Time>)
  {
    && |after| == |before| && rel < |before| && (forall r :: 0 <= r < |before| && r != rel ==> after[r] == before[r])
    && after[rel].task == before[rel].task && after[rel].scorer == before[rel].scorer
    && after[rel].status == status && after[rel].acceptedAt == acceptedAt
  }

  /** An open invitation for seven days. */
  predicate FreshInvitation(i: Invitation, task: TaskId, scorer: ScorerId, now: Time) {
    && i.task == task && i.scorer == scorer && i.status == Sent && i.respondedAt.None?
    && i.expiresAt == now + 7 * 24 * 60 * 60
  }

  lemma RowsTell(relations: seq<Relation>, invitations: seq<Invitation>, task: TaskId, scorer: ScorerId, now: Time)
    ensures OwnCancelled(invitations, CancelSent(invitations, task, scorer), task, scorer)
    ensures FreshInvitation(NewInvitation(task, scorer, now), task, scorer, now)
    ensures forall rel: nat, status, at :: rel < |relations| ==>
              OneRelationSet(relations, WithStatus(relations, rel, status, at), rel, status, at)
  {
  }

  /** An expiry cancels the open invitations of its own task and scorer and then closes its own relation; other scorers'
      rows are left alone. */
  lemma ExpiryIsItsOwn(s: State, p: Proc)
    requires Enabled(s, Step(p))
    ensures s.procs[p].Expiring? ==>
              && OwnCancelled(s.invitations, Next(s, Step(p)).invitations, s.procs[p].task, s.procs[p].scorer)
              && Next(s, Step(p)).relations == s.relations
    ensures s.procs[p].Closing? ==>
              var rel := s.procs[p].rel;
              && Next(s, Step(p)).invitations == s.invitations
              && OneRelationSet(s.relations, Next(s, Step(p)).relations, rel, Inactive, s.relations[rel].acceptedAt)
  {
  }

  /** A removal makes every relation of its task and scorer inactive, and nothing else. */
  lemma RemovalIsItsOwn(s: State, task: TaskId, scorer: ScorerId)
    ensures
      var t := Next(s, Remove(task, scorer));
      && t.invitations == s.invitations && t.procs == s.procs && |t.relations| == |s.relations|
      && forall r :: 0 <= r < |s.relations| ==>
           if s.relations[r].task != task || s.relations[r].scorer != scorer then t.relations[r] == s.relations[r]
           else
             && t.relations[r].status == Inactive && t.relations[r].acceptedAt == s.relations[r].acceptedAt
             && t.relations[r].task == task && t.relations[r].scorer == scorer
  {
  }

  predicate Run(s: State, es: seq<Event>, t: State)
    decreases |es|
  {
    if es == [] then s == t else Enabled(s, es[0]) && Run(Next(s, es[0]), es[1..], t)
  }

  // ---- What every step keeps

  predicate Answered(inv: Invitation) { inv.respondedAt.Some? && inv.respondedAt.value <= inv.expiresAt }

  /** An invitation that is evidence for a relation: same task and scorer, answered in time. */
  predicate Evidence(inv: Invitation, r: Relation) {
    inv.task == r.task && inv.scorer == r.scorer && Answered(inv)
  }

  ghost predicate Proven(s: State) {
    forall r :: 0 <= r < |s.relations| && s.relations[r].status == Accepted ==>
      s.relations[r].acceptedAt.Some? && exists i :: 0 <= i < |s.invitations| && Evidence(s.invitations[i], s.relations[r])
  }

  ghost predicate Stands(s: State, pc: Pc) {
    && InRange(s, pc)
    && match pc {
         case InTime(inv, _, at) => at <= s.invitations[inv].expiresAt
         case Answering(inv, at, rel) =>
           at <= s.invitations[inv].expiresAt &&
           s.invitations[inv].task == s.relations[rel].task && s.invitations[inv].scorer == s.relations[rel].scorer
         case Confirming(inv, _, rel) => Evidence(s.invitations[inv], s.relations[rel])
         case _ => true
       }
  }

  /** An answered invitation is in its answered status, or in its expired one once it has expired; and nobody
      goes on with one he saw cancelled or expired. */
  ghost predicate Settled(s: State) {
    && (forall i :: 0 <= i < |s.invitations| && s.invitations[i].status == Expired ==> s.invitations[i].expiresAt < s.now)
    && (forall i :: 0 <= i < |s.invitations| && s.invitations[i].respondedAt.Some? ==>
          s.invitations[i].status == Responded || s.invitations[i].status == Expired)
    && (forall p :: p in s.procs ==> SeenWell(s, s.procs[p]))
  }

  predicate SeenWell(s: State, pc: Pc) {
    match pc
    case Accepting(inv, seen) => seen == Expired ==> inv < |s.invitations| && s.invitations[inv].expiresAt < s.now
    case InTime(_, seen, _) => seen == Sent || seen == Responded
    case _ => true
  }

  ghost predicate Inv(s: State) {
    Proven(s) && Settled(s) && forall p :: p in s.procs ==> Stands(s, s.procs[p])
  }

  /** Whose invitation a row is never changes, nor when it expires, and an answer is never taken back;
      whose relation a row is never changes either. */
  ghost predicate Extends(s: State, t: State) {
    && |s.invitations| <= |t.invitations| && |s.relations| <= |t.relations|
    && (forall i :: 0 <= i < |s.invitations| ==>
          && t.invitations[i].task == s.invitations[i].task && t.invitations[i].scorer == s.invitations[i].scorer
          && t.invitations[i].expiresAt == s.invitations[i].expiresAt
          && (Answered(s.invitations[i]) ==> Answered(t.invitations[i])))
    && (forall r :: 0 <= r < |s.relations| ==>
          t.relations[r].task == s.relations[r].task && t.relations[r].scorer == s.relations[r].scorer)
  }

  lemma StepExtends(s: State, e: Event)
    requires Inv(s) && Enabled(s, e)
    ensures Extends(s, Next(s, e))
  {
    if e.Step? {
      assert Stands(s, s.procs[e.p]);
    }
  }

  lemma StandsOn(s: State, t: State, pc: Pc)
    requires Stands(s, pc) && Extends(s, t)
    ensures Stands(t, pc)
  {
  }

  lemma ProcsStep(s: State, e: Event)
    requires Inv(s) && Enabled(s, e)
    ensures forall p :: p in Next(s, e).procs ==> Stands(Next(s, e), Next(s, e).procs[p])
  {
    var t := Next(s, e);
    StepExtends(s, e);
    forall p | p in t.procs ensures Stands(t, t.procs[p]) {
      if p in s.procs && t.procs[p] == s.procs[p] {
        StandsOn(s, t, s.procs[p]);
      } else if e.Step? {
        assert Stands(s, s.procs[e.p]);
      }
    }
  }

  lemma ProvenStep(s: State, e: Event)
    requires Inv(s) && Enabled(s, e)
    ensures Proven(Next(s, e))
  {
    var t := Next(s, e);
    StepExtends(s, e);
    forall r | 0 <= r < |t.relations| && t.relations[r].status == Accepted
      ensures t.relations[r].acceptedAt.Some?
      ensures exists i :: 0 <= i < |t.invitations| && Evidence(t.invitations[i], t.relations[r])
    {
      if e.Step? && s.procs[e.p].Confirming? && s.procs[e.p].rel == r {
        assert Stands(s, s.procs[e.p]);
        assert Evidence(t.invitations[s.procs[e.p].inv], t.relations[r]);
      } else {
        assert s.relations[r].status == Accepted;
        var i :| 0 <= i < |s.invitations| && Evidence(s.invitations[i], s.relations[r]);
        assert Evidence(t.invitations[i], t.relations[r]);
      }
    }
  }

  lemma SeenStep(s: State, e: Event)
    requires Inv(s) && Enabled(s, e)
    ensures forall p :: p in Next(s, e).procs ==> SeenWell(Next(s, e), Next(s, e).procs[p])
  {
    var t := Next(s, e);
    StepExtends(s, e);
    forall p | p in t.procs ensures SeenWell(t, t.procs[p]) {
      if p in s.procs && t.procs[p] == s.procs[p] {
        assert SeenWell(s, s.procs[p]) && Stands(s, s.procs[p]);
      } else if e.Step? {
        assert SeenWell(s, s.procs[e.p]);
      }
    }
  }

  lemma SettledStep(s: State, e: Event)
    requires Inv(s) && Enabled(s, e)
    ensures Settled(Next(s, e))
  {
    SeenStep(s, e);
    hide SeenWell, Proven, Stands;
  }

  lemma StepKeeps(s: State, e: Event)
    requires Inv(s) && Enabled(s, e)
    ensures Inv(Next(s, e))
  {
    ProcsStep(s, e);
    ProvenStep(s, e);
    SettledStep(s, e);
    hide Proven, Settled, Next;
  }

  lemma {:induction false} RunKeeps(s: State, es: seq<Event>, t: State)
    requires Inv(s) && Run(s, es, t)
    ensures Inv(t)
    decreases |es|
  {
    if es != [] {
      StepKeeps(s, es[0]);
      RunKeeps(Next(s, es[0]), es[1..], t);
    }
  }

  ghost predicate Reachable(s: State) { exists es :: Run(Init(), es, s) }

  lemma ReachableInv(s: State)
    requires Reachable(s)
    ensures Inv(s)
  {
    var es :| Run(Init(), es, s);
    RunKeeps(Init(), es, s);
  }

  /** In every reachable state, through any interleaving and any crash, an accepted relation has an
      invitation for its task and scorer that was answered no later than it expired. */
  lemma AcceptedHasEvidence(s: State, r: nat)
    requires Reachable(s) && r < |s.relations| && s.relations[r].status == Accepted
    ensures exists i :: 0 <= i < |s.invitations| && Evidence(s.invitations[i], s.relations[r])
  {
    ReachableInv(s);
  }

  lemma {:induction false} RunConcat(s: State, es: seq<Event>, m: State, fs: seq<Event>, t: State)
    requires Run(s, es, m) && Run(m, fs, t)
    ensures Run(s, es + fs, t)
    decreases |es|
  {
    if es == [] {
      assert es + fs == fs;
    } else {
      RunConcat(Next(s, es[0]), es[1..], m, fs, t);
      assert (es + fs)[0] == es[0] && (es + fs)[1..] == es[1..] + fs;
    }
  }

  lemma ReachableNext(s: State, e: Event)
    requires Reachable(s) && Enabled(s, e)
    ensures Reachable(Next(s, e))
  {
    var es :| Run(Init(), es, s);
    assert Run(s, [e], Next(s, e));
    RunConcat(Init(), es, s, [e], Next(s, e));
  }

  // ---- What does not hold

  function Invited(): State {
    State(0, [Relation(1, 2, Pending, None)], [NewInvitation(1, 2, 0)], map[])
  }

  lemma InvitedIsReached()
    ensures Reachable(Invited())
  {
    var s0 := Init();
    assert Run(s0, [], s0);
    ReachableNext(s0, BeginNotify(9, 1, 2));
    var s1 := Next(s0, BeginNotify(9, 1, 2));
    ReachableNext(s1, Look(9, None));
    var s2 := Next(s1, Look(9, None));
    ReachableNext(s2, Step(9));
    var s3 := Next(s2, Step(9));
    assert s3.relations == [Relation(1, 2, Pending, None)];
    ReachableNext(s3, Step(9));
    assert Next(s3, Step(9)) == Invited();
  }

  /** An acceptance stopped between its two writes. */
  function HalfAccepted(): State {
    State(0, [Relation(1, 2, Pending, None)],
          [NewInvitation(1, 2, 0).(status := Responded, respondedAt := Some(0))], map[8 := Confirming(0, 0, 0)])
  }

  lemma HalfAcceptedIsReached()
    ensures Reachable(HalfAccepted())
  {
    InvitedIsReached();
    var s0 := Invited();
    ReachableNext(s0, BeginAccept(8, 0));
    var s1 := Next(s0, BeginAccept(8, 0));
    ReachableNext(s1, Step(8));
    var s2 := Next(s1, Step(8));
    ReachableNext(s2, Look(8, Some(0)));
    var s3 := Next(s2, Look(8, Some(0)));
    ReachableNext(s3, Step(8));
    assert Next(s3, Step(8)) == HalfAccepted();
  }

  /** The evidence is the answer, not the status: accepting again after the expiry marks the invitation
      expired, so an accepted relation may have no invitation of accepted status left. */
  lemma EvidenceMayBeMarkedExpired()
    ensures exists s :: Reachable(s) && |s.relations| == 1 && s.relations[0].status == Accepted
                        && |s.invitations| == 1 && s.invitations[0].status == Expired
  {
    HalfAcceptedIsReached();
    ReachableNext(HalfAccepted(), Step(8));
    var s1 := Next(HalfAccepted(), Step(8));
    ReachableNext(s1, Tick(INVITATION_TTL + 1));
    var s2 := Next(s1, Tick(INVITATION_TTL + 1));
    ReachableNext(s2, BeginAccept(7, 0));
    var s3 := Next(s2, BeginAccept(7, 0));
    ReachableNext(s3, Step(7));
    var s4 := Next(s3, Step(7));
    assert s4.invitations[0].status == Expired && s4.relations[0].status == Accepted;
  }

  /** Exactly when that happens. Up to its expiry an answered invitation has its answered status in every
      reachable state; an acceptance begun now marks it expired if and only if the expiry is past. */
  lemma MarkedExpiredIff(s: State, i: nat, p: Proc)
    requires Reachable(s) && i < |s.invitations| && s.invitations[i].respondedAt.Some? && p !in s.procs
    ensures s.invitations[i].status == Responded || (s.invitations[i].status == Expired && s.invitations[i].expiresAt < s.now)
    ensures Next(Next(s, BeginAccept(p, i)), Step(p)).invitations[i].status == Expired <==>
              s.invitations[i].expiresAt < s.now
  {
    ReachableInv(s);
  }

  // ---- Whether an answered invitation can still confirm its relation

  /** A process that may yet write the relation for this invitation: it has answered it, is about to, or saw
      it open and is in time. */
  predicate Live(s: State, pc: Pc, inv: nat) {
    match pc
    case Accepting(i, seen) => i == inv && seen == Sent && inv < |s.invitations| && s.now <= s.invitations[inv].expiresAt
    case InTime(i, seen, _) => i == inv && seen == Sent
    case Answering(i, _, _) => i == inv
    case Confirming(i, _, _) => i == inv
    case _ => false
  }

  /** The event writes a relation as accepted on the strength of this invitation. */
  predicate Confirms(s: State, e: Event, inv: nat) {
    e.Step? && e.p in s.procs && s.procs[e.p].Confirming? && s.procs[e.p].inv == inv
  }

  lemma ConfirmingAccepts(s: State, e: Event, inv: nat)
    requires Inv(s) && Enabled(s, e) && Confirms(s, e, inv)
    ensures exists r :: 0 <= r < |s.relations| && Evidence(s.invitations[inv], s.relations[r])
                        && Next(s, e).relations[r].status == Accepted
  {
    var r := s.procs[e.p].rel;
    assert Stands(s, s.procs[e.p]);
    assert Next(s, e).relations[r].status == Accepted;
  }

  /** The run takes place from `s` and such a write is in it. */
  predicate RunConfirms(s: State, es: seq<Event>, inv: nat)
    decreases |es|
  {
    es != [] && Enabled(s, es[0]) && (Confirms(s, es[0], inv) || RunConfirms(Next(s, es[0]), es[1..], inv))
  }

  ghost predicate CanConfirm(s: State, inv: nat) { exists es :: RunConfirms(s, es, inv) }

  ghost predicate Dead(s: State, inv: nat) {
    && inv < |s.invitations| && s.invitations[inv].status != Sent
    && forall p :: p in s.procs ==> !Live(s, s.procs[p], inv)
  }

  lemma StaysDead(s: State, t: State, pc: Pc, inv: nat)
    requires Extends(s, t) && s.now <= t.now && inv < |s.invitations| && !Live(s, pc, inv)
    ensures !Live(t, pc, inv)
  {
  }

  /** The process that an event is about. */
  lemma MovesDead(s: State, e: Event, inv: nat)
    requires Enabled(s, e) && Dead(s, inv) && !e.Tick? && !e.Remove? && e.p in Next(s, e).procs
    requires e.p in s.procs ==> SeenWell(s, s.procs[e.p])
    ensures !Live(Next(s, e), Next(s, e).procs[e.p], inv)
  {
  }

  lemma DeadProc(s: State, e: Event, inv: nat, p: Proc)
    requires Inv(s) && Enabled(s, e) && Dead(s, inv) && p in Next(s, e).procs
    ensures !Live(Next(s, e), Next(s, e).procs[p], inv)
  {
    StepExtends(s, e);
    hide Proven, Extends, SeenWell, Live, Stands;
    if !e.Tick? && !e.Remove? && e.p == p {
      MovesDead(s, e, inv);
    } else {
      StaysDead(s, Next(s, e), s.procs[p], inv);
    }
  }

  lemma ClosedStep(s: State, e: Event, inv: nat)
    requires Enabled(s, e) && inv < |s.invitations| && s.invitations[inv].status != Sent
    ensures inv < |Next(s, e).invitations| && Next(s, e).invitations[inv].status != Sent
  {
  }

  lemma DeadStep(s: State, e: Event, inv: nat)
    requires Inv(s) && Enabled(s, e) && Dead(s, inv)
    ensures Dead(Next(s, e), inv) && !Confirms(s, e, inv)
  {
    ClosedStep(s, e, inv);
    var t := Next(s, e);
    forall p | p in t.procs ensures !Live(t, t.procs[p], inv) {
      DeadProc(s, e, inv, p);
    }
    hide Inv, Next, Enabled;
  }

  lemma {:induction false} DeadNeverConfirms(s: State, es: seq<Event>, inv: nat)
    requires Inv(s) && Dead(s, inv)
    ensures !RunConfirms(s, es, inv)
    decreases |es|
  {
    if es != [] && Enabled(s, es[0]) {
      DeadStep(s, es[0], inv);
      StepKeeps(s, es[0]);
      DeadNeverConfirms(Next(s, es[0]), es[1..], inv);
    }
  }

  lemma ConfirmsLater(s: State, e: Event, inv: nat)
    requires Enabled(s, e) && (Confirms(s, e, inv) || CanConfirm(Next(s, e), inv))
    ensures CanConfirm(s, inv)
  {
    if Confirms(s, e, inv) {
      assert RunConfirms(s, [e], inv);
    } else {
      var es :| RunConfirms(Next(s, e), es, inv);
      assert ([e] + es)[1..] == es;
      assert RunConfirms(s, [e] + es, inv);
    }
  }

  lemma FreshProc(procs: map<Proc, Pc>) returns (p: Proc)
    ensures p !in procs
  {
    p := 0;
    var seen: set<Proc> := {};
    while p in procs
      invariant seen <= procs.Keys && forall q: Proc :: q in seen <==> q < p
      decreases procs.Keys - seen
    {
      seen := seen + {p};
      p := p + 1;
    }
  }

  lemma AnsweringConfirms(s: State, p: Proc, inv: nat)
    requires Inv(s) && p in s.procs && (s.procs[p].Answering? || s.procs[p].Confirming?) && s.procs[p].inv == inv
    ensures CanConfirm(s, inv)
    decreases s.procs[p].Answering?
  {
    assert Stands(s, s.procs[p]);
    if s.procs[p].Answering? {
      StepKeeps(s, Step(p));
      AnsweringConfirms(Next(s, Step(p)), p, inv);
    }
    ConfirmsLater(s, Step(p), inv);
  }

  /** From any state the relation of an invitation can be made pending again: removed, then notified anew. The
      process `p` stays where it is. */
  lemma Reopens(s: State, p: Proc, inv: nat) returns (t: State, rel: nat)
    requires Inv(s) && p in s.procs && inv < |s.invitations|
    ensures Inv(t) && p in t.procs && t.procs[p] == s.procs[p] && t.invitations == s.invitations && t.now == s.now
    ensures rel < |t.relations| && t.relations[rel].status == Pending
    ensures t.relations[rel].task == s.invitations[inv].task && t.relations[rel].scorer == s.invitations[inv].scorer
    ensures CanConfirm(t, inv) ==> CanConfirm(s, inv)
  {
    hide Inv, CanConfirm;
    var task, scorer := s.invitations[inv].task, s.invitations[inv].scorer;
    var q := FreshProc(s.procs);
    var s1 := Next(s, Remove(task, scorer));
    StepKeeps(s, Remove(task, scorer));
    var s2 := Next(s1, BeginNotify(q, task, scorer));
    StepKeeps(s1, BeginNotify(q, task, scorer));
    var found := RelationOf(s2.relations, task, scorer);
    var s3 := Next(s2, Look(q, found));
    StepKeeps(s2, Look(q, found));
    t := Next(s3, Step(q));
    StepKeeps(s3, Step(q));
    rel := if found.Some? then found.value else |s3.relations|;
    if CanConfirm(t, inv) {
      ConfirmsLater(s3, Step(q), inv);
      ConfirmsLater(s2, Look(q, found), inv);
      ConfirmsLater(s1, BeginNotify(q, task, scorer), inv);
      ConfirmsLater(s, Remove(task, scorer), inv);
    }
  }

  lemma RelationOf(relations: seq<Relation>, task: TaskId, scorer: ScorerId) returns (found: Option<nat>)
    ensures Finds(relations, task, scorer, found)
  {
    if i: nat :| i < |relations| && relations[i].task == task && relations[i].scorer == scorer {
      found := Some(i);
    } else {
      found := None;
    }
  }

  lemma InTimeConfirms(s: State, p: Proc, inv: nat)
    requires Inv(s) && p in s.procs && s.procs[p].InTime? && s.procs[p].inv == inv && s.procs[p].seen == Sent
    ensures CanConfirm(s, inv)
  {
    assert Stands(s, s.procs[p]);
    var t, rel := Reopens(s, p, inv);
    StepKeeps(t, Look(p, Some(rel)));
    AnsweringConfirms(Next(t, Look(p, Some(rel))), p, inv);
    ConfirmsLater(t, Look(p, Some(rel)), inv);
  }

  lemma LiveConfirms(s: State, p: Proc, inv: nat)
    requires Inv(s) && p in s.procs && Live(s, s.procs[p], inv)
    ensures CanConfirm(s, inv)
  {
    match s.procs[p] {
      case Accepting(_, _) =>
        StepKeeps(s, Step(p));
        InTimeConfirms(Next(s, Step(p)), p, inv);
        ConfirmsLater(s, Step(p), inv);
      case InTime(_, _, _) => InTimeConfirms(s, p, inv);
      case _ => AnsweringConfirms(s, p, inv);
    }
  }

  /** An invitation that is no longer open, answered ones among them, can still confirm a relation if and only
      if some process holds it having seen it open in time, or is already answering or confirming it. */
  lemma CanConfirmIff(s: State, inv: nat)
    requires Reachable(s) && inv < |s.invitations| && s.invitations[inv].status != Sent
    ensures CanConfirm(s, inv) <==> exists p :: p in s.procs && Live(s, s.procs[p], inv)
  {
    ReachableInv(s);
    if p :| p in s.procs && Live(s, s.procs[p], inv) {
      LiveConfirms(s, p, inv);
    } else {
      forall es ensures !RunConfirms(s, es, inv) {
        DeadNeverConfirms(s, es, inv);
      }
    }
  }

  /** An acceptance that crashes between its two writes leaves its answer behind with the relation pending, and
      for good. */
  lemma AnswerMayBeLost()
    ensures exists s :: Reachable(s) && |s.invitations| == 1 && s.invitations[0].status == Responded
                        && |s.relations| == 1 && s.relations[0].status == Pending && !CanConfirm(s, 0)
  {
    HalfAcceptedIsReached();
    ReachableNext(HalfAccepted(), Crash(8));
    var s := Next(HalfAccepted(), Crash(8));
    assert s.procs == map[];
    CanConfirmIff(s, 0);
  }

  /** Two acceptances that have both seen the invitation open. */
  function TwoAccepting(): State {
    Invited().(procs := map[7 := Accepting(0, Sent), 8 := InTime(0, Sent, 0)])
  }

  lemma TwoAcceptingIsReached()
    ensures Reachable(TwoAccepting())
  {
    InvitedIsReached();
    ReachableNext(Invited(), BeginAccept(7, 0));
    var s1 := Next(Invited(), BeginAccept(7, 0));
    ReachableNext(s1, BeginAccept(8, 0));
    var s2 := Next(s1, BeginAccept(8, 0));
    ReachableNext(s2, Step(8));
    assert Next(s2, Step(8)) == TwoAccepting();
  }

  /** When a second acceptance has seen the invitation open before the first one's answer, it makes up for the
      crash: the same answer without its relation, which can still be confirmed. */
  lemma AnswerMayBeMadeGood()
    ensures exists s :: Reachable(s) && |s.invitations| == 1 && s.invitations[0].status == Responded
                        && |s.relations| == 1 && s.relations[0].status == Pending && CanConfirm(s, 0)
  {
    TwoAcceptingIsReached();
    var s0 := TwoAccepting();
    ReachableNext(s0, Look(8, Some(0)));
    var s1 := Next(s0, Look(8, Some(0)));
    ReachableNext(s1, Step(8));
    var s2 := Next(s1, Step(8));
    ReachableNext(s2, Crash(8));
    var s := Next(s2, Crash(8));
    assert s.procs == map[7 := Accepting(0, Sent)];
    assert Live(s, s.procs[7], 0);
    CanConfirmIff(s, 0);
  }

  // ---- Whether a relation that was removed or has expired is accepted again

  /** The event makes an inactive relation pending again: a notification or a resend, which are meant to. */
  predicate Reopened(s: State, e: Event, rel: nat) {
    e.Step? && e.p in s.procs &&
    match s.procs[e.p] {
      case Relating(_, _, found, was) => found == Some(rel) && was != Accepted
      case Reopening(r) => r == rel
      case _ => false
    }
  }

  predicate NotReopened(s: State, es: seq<Event>, rel: nat)
    decreases |es|
  {
    es == [] || (Enabled(s, es[0]) && !Reopened(s, es[0], rel) && NotReopened(Next(s, es[0]), es[1..], rel))
  }

  /** An acceptance that has looked at the relation and is about to write. */
  predicate Holding(pc: Pc, rel: nat) { (pc.Answering? || pc.Confirming?) && pc.rel == rel }

  ghost predicate Shut(s: State, rel: nat) {
    && rel < |s.relations| && s.relations[rel].status == Inactive
    && forall p :: p in s.procs ==> !Holding(s.procs[p], rel)
  }

  lemma ShutStep(s: State, e: Event, rel: nat)
    requires Enabled(s, e) && Shut(s, rel) && !Reopened(s, e, rel)
    ensures Shut(Next(s, e), rel)
  {
  }

  lemma {:induction false} ShutThrough(s: State, es: seq<Event>, t: State, rel: nat)
    requires Shut(s, rel) && Run(s, es, t) && NotReopened(s, es, rel)
    ensures Shut(t, rel)
    decreases |es|
  {
    if es != [] {
      ShutStep(s, es[0], rel);
      hide Shut, Next, Enabled, Reopened;
      ShutThrough(Next(s, es[0]), es[1..], t, rel);
    }
  }

  ghost predicate CanRevive(s: State, rel: nat) {
    exists es, t :: Run(s, es, t) && NotReopened(s, es, rel)
                    && rel < |t.relations| && t.relations[rel].status == Accepted
  }

  lemma HoldingRevives(s: State, p: Proc, rel: nat) returns (es: seq<Event>, t: State)
    requires Inv(s) && p in s.procs && Holding(s.procs[p], rel)
    ensures Run(s, es, t) && NotReopened(s, es, rel)
    ensures rel < |t.relations| && t.relations[rel].status == Accepted
    decreases s.procs[p].Answering?
  {
    assert Stands(s, s.procs[p]);
    var m := Next(s, Step(p));
    if s.procs[p].Answering? {
      StepKeeps(s, Step(p));
      var rest;
      rest, t := HoldingRevives(m, p, rel);
      es := [Step(p)] + rest;
      assert es[1..] == rest;
    } else {
      es, t := [Step(p)], m;
      assert es[1..] == [];
    }
  }

  /** An inactive relation that nobody reopens becomes accepted in some run if and only if an acceptance that found
      it active before is about to write: neither of its writes looks at the relation again. */
  lemma RevivedIff(s: State, rel: nat)
    requires Reachable(s) && rel < |s.relations| && s.relations[rel].status == Inactive
    ensures CanRevive(s, rel) <==> exists p :: p in s.procs && Holding(s.procs[p], rel)
  {
    ReachableInv(s);
    if p :| p in s.procs && Holding(s.procs[p], rel) {
      var es, t := HoldingRevives(s, p, rel);
    } else {
      forall es, t | Run(s, es, t) && NotReopened(s, es, rel)
        ensures rel < |t.relations| && t.relations[rel].status != Accepted
      {
        ShutThrough(s, es, t, rel);
      }
    }
  }

  /** A removal that comes between the two writes of an acceptance does not last. */
  lemma RemovedMayBeRevived()
    ensures exists s :: Reachable(s) && |s.relations| == 1 && s.relations[0].status == Inactive && CanRevive(s, 0)
  {
    HalfAcceptedIsReached();
    ReachableNext(HalfAccepted(), Remove(1, 2));
    var s := Next(HalfAccepted(), Remove(1, 2));
    assert Holding(s.procs[8], 0);
    RevivedIff(s, 0);
  }
}

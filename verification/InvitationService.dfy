/** The invitation operations as methods, each run undisturbed from beginning to end. */
module InvitationService {
  import opened Wrappers
  import opened Invitations

  datatype Error =
    | InvitationInvalid | InvitationExpired | RelationNotFound | RelationInactive | EmailRequired | MailUnavailable

  function FirstRelation(relations: seq<Relation>, task: TaskId, scorer: ScorerId): (found: Option<nat>)
    ensures Finds(relations, task, scorer, found)
  {
    if relations == [] then None
    else if relations[0].task == task && relations[0].scorer == scorer then Some(0)
    else
      match FirstRelation(relations[1..], task, scorer)
      case None => None
      case Some(i) => Some(i + 1)
  }

  /** Every accepted relation has evidence. */
  ghost predicate AllProven(relations: seq<Relation>, invitations: seq<Invitation>) {
    Proven(State(0, relations, invitations, map[]))
  }

  // ---- The same operations in the protocol's steps

  function At(now: Time, relations: seq<Relation>, invitations: seq<Invitation>): State {
    State(now, relations, invitations, map[])
  }

  predicate Own(es: seq<Event>, first: Event) {
    es != [] && es[0] == first && forall k :: 0 < k < |es| ==> es[k] == Step(0) || (es[k].Look? && es[k].p == 0)
  }

  /** One process's uninterrupted run of the protocol, from its first event to its end, leads from the one pair
      of tables to the other. */
  ghost predicate Performs(first: Event, from: State, to: State) {
    exists es :: Own(es, first) && Run(from, es, to)
  }

  lemma Begins(s: State, first: Event)
    requires Enabled(s, first)
    ensures Performs(first, s, Next(s, first))
  {
    assert Own([first], first);
    assert Run(s, [first], Next(s, first));
  }

  lemma GoesOn(first: Event, s: State, m: State, e: Event)
    requires Performs(first, s, m) && Enabled(m, e) && (e == Step(0) || (e.Look? && e.p == 0))
    ensures Performs(first, s, Next(m, e))
  {
    var es :| Own(es, first) && Run(s, es, m);
    assert Run(m, [e], Next(m, e));
    RunConcat(s, es, m, [e], Next(m, e));
    assert Own(es + [e], first);
  }

  /** The tables after an acceptance. */
  function AfterAccept(now: Time, relations: seq<Relation>, invitations: seq<Invitation>, inv: nat): State
    requires inv < |invitations|
  {
    var i := invitations[inv];
    var found := FirstRelation(relations, i.task, i.scorer);
    if i.status == Cancelled then At(now, relations, invitations)
    else if i.expiresAt < now then At(now, relations, invitations[inv := i.(status := Expired)])
    else if found.None? || relations[found.value].status != Pending || i.status == Responded then
      At(now, relations, invitations)
    else
      At(now, WithStatus(relations, found.value, Accepted, Some(now)),
         invitations[inv := i.(status := Responded, respondedAt := Some(now))])
  }

  lemma AcceptPerforms(now: Time, relations: seq<Relation>, invitations: seq<Invitation>, inv: nat)
    requires inv < |invitations|
    ensures Performs(BeginAccept(0, inv), At(now, relations, invitations), AfterAccept(now, relations, invitations, inv))
  {
    var s, first := At(now, relations, invitations), BeginAccept(0, inv);
    var s1 := Next(s, first);
    Begins(s, first);
    var s2 := Next(s1, Step(0));
    GoesOn(first, s, s1, Step(0));
    var i := invitations[inv];
    if i.status != Cancelled && now <= i.expiresAt {
      var found := FirstRelation(relations, i.task, i.scorer);
      var s3 := Next(s2, Look(0, found));
      GoesOn(first, s, s2, Look(0, found));
      if s3.procs != map[] {
        GoesOn(first, s, s3, Step(0));
        var s4 := Next(s3, Step(0));
        GoesOn(first, s, s4, Step(0));
        assert Next(s4, Step(0)) == AfterAccept(now, relations, invitations, inv);
      }
    }
  }

  function AfterNotify(now: Time, relations: seq<Relation>, invitations: seq<Invitation>, task: TaskId, scorer: ScorerId): State {
    At(now,
       match FirstRelation(relations, task, scorer) {
         case None => relations + [Relation(task, scorer, Pending, None)]
         case Some(i) => if relations[i].status == Accepted then relations else WithStatus(relations, i, Pending, None)
       },
       invitations + [NewInvitation(task, scorer, now)])
  }

  lemma NotifyPerforms(now: Time, relations: seq<Relation>, invitations: seq<Invitation>, task: TaskId, scorer: ScorerId)
    ensures Performs(BeginNotify(0, task, scorer), At(now, relations, invitations),
                     AfterNotify(now, relations, invitations, task, scorer))
  {
    var s, first := At(now, relations, invitations), BeginNotify(0, task, scorer);
    var found := FirstRelation(relations, task, scorer);
    var s1 := Next(s, first);
    Begins(s, first);
    var s2 := Next(s1, Look(0, found));
    GoesOn(first, s, s1, Look(0, found));
    var s3 := Next(s2, Step(0));
    GoesOn(first, s, s2, Step(0));
    GoesOn(first, s, s3, Step(0));
    assert Next(s3, Step(0)) == AfterNotify(now, relations, invitations, task, scorer);
  }

  lemma ResendPerforms(now: Time, relations: seq<Relation>, invitations: seq<Invitation>, rel: nat)
    requires rel < |relations| && relations[rel].status != Inactive
    ensures Performs(BeginResend(0, rel), At(now, relations, invitations),
                     At(now,
                        if relations[rel].status == Accepted then relations else WithStatus(relations, rel, Pending, None),
                        invitations + [NewInvitation(relations[rel].task, relations[rel].scorer, now)]))
  {
    var s, first := At(now, relations, invitations), BeginResend(0, rel);
    var s1 := Next(s, first);
    Begins(s, first);
    var s2 := Next(s1, Step(0));
    GoesOn(first, s, s1, Step(0));
    if relations[rel].status == Accepted {
      assert s2.procs == map[];
    } else {
      GoesOn(first, s, s2, Step(0));
      assert Next(s2, Step(0)).procs == map[];
    }
  }

  lemma ExpirePerforms(now: Time, relations: seq<Relation>, invitations: seq<Invitation>, rel: nat)
    requires rel < |relations| && relations[rel].status == Pending
    ensures Performs(BeginExpire(0, rel), At(now, relations, invitations),
                     At(now, WithStatus(relations, rel, Inactive, relations[rel].acceptedAt),
                        CancelSent(invitations, relations[rel].task, relations[rel].scorer)))
  {
    var s, first := At(now, relations, invitations), BeginExpire(0, rel);
    var s1 := Next(s, first);
    Begins(s, first);
    var s2 := Next(s1, Step(0));
    GoesOn(first, s, s1, Step(0));
    GoesOn(first, s, s2, Step(0));
    assert Next(s2, Step(0)).procs == map[];
  }

  class Service {
    var relations: seq<Relation>
    var invitations: seq<Invitation>

    constructor ()
      ensures relations == [] && invitations == []
    {
      relations, invitations := [], [];
    }

    /** Accepts an invitation; answers with the relation's acceptance time. */
    method AcceptInvitation(inv: nat, now: Time) returns (r: Result<Option<Time>, Error>)
      requires inv < |invitations|
      modifies this
      ensures
        var i, found := old(invitations)[inv], FirstRelation(old(relations), old(invitations)[inv].task, old(invitations)[inv].scorer);
        if i.status == Cancelled then
          r == Err(InvitationInvalid) && relations == old(relations) && invitations == old(invitations)
        else if i.expiresAt < now then
          r == Err(InvitationExpired) && relations == old(relations) && invitations == old(invitations)[inv := i.(status := Expired)]
        else if found.None? || old(relations)[found.value].status == Inactive then
          r == Err(if found.None? then RelationNotFound else RelationInactive) &&
          relations == old(relations) && invitations == old(invitations)
        else if i.status == Responded || old(relations)[found.value].status == Accepted then
          var at := old(relations)[found.value].acceptedAt;
          r == Ok(if at.Some? then at else i.respondedAt) && relations == old(relations) && invitations == old(invitations)
        else
          r == Ok(Some(now)) &&
          relations == WithStatus(old(relations), found.value, Accepted, Some(now)) &&
          OneRelationSet(old(relations), relations, found.value, Accepted, Some(now)) &&
          invitations == old(invitations)[inv := i.(status := Responded, respondedAt := Some(now))]
      ensures AllProven(old(relations), old(invitations)) ==> AllProven(relations, invitations)
      ensures Performs(BeginAccept(0, inv), At(now, old(relations), old(invitations)), At(now, relations, invitations))
    {
      ghost var relations0, invitations0 := relations, invitations;
      AcceptPerforms(now, relations, invitations, inv);
      var i := invitations[inv];
      if i.status == Cancelled {
        return Err(InvitationInvalid);
      }
      if i.expiresAt < now {
        invitations := invitations[inv := i.(status := Expired)];
        EvidenceStays(relations0, invitations0, relations, invitations);
        return Err(InvitationExpired);
      }
      var found := FirstRelation(relations, i.task, i.scorer);
      if found.None? {
        return Err(RelationNotFound);
      }
      if relations[found.value].status == Inactive {
        return Err(RelationInactive);
      }
      if i.status == Responded || relations[found.value].status == Accepted {
        var at := relations[found.value].acceptedAt;
        return Ok(if at.Some? then at else i.respondedAt);
      }
      invitations := invitations[inv := i.(status := Responded, respondedAt := Some(now))];
      relations := relations[found.value := relations[found.value].(status := Accepted, acceptedAt := Some(now))];
      assert Evidence(invitations[inv], relations[found.value]);
      EvidenceStays(relations0, invitations0, relations, invitations);
      r := Ok(Some(now));
    }

    /** Finds or creates the relation, reopening one that is not accepted, and sends an invitation. */
    method Notify(task: TaskId, scorer: ScorerId, now: Time) returns (created: bool)
      modifies this
      ensures created <==> FirstRelation(old(relations), task, scorer).None?
      ensures invitations == old(invitations) + [NewInvitation(task, scorer, now)]
      ensures FreshInvitation(invitations[|old(invitations)|], task, scorer, now)
      ensures
        match FirstRelation(old(relations), task, scorer) {
          case None => relations == old(relations) + [Relation(task, scorer, Pending, None)]
          case Some(i) =>
            if old(relations)[i].status == Accepted then relations == old(relations)
            else
              relations == WithStatus(old(relations), i, Pending, None) &&
              OneRelationSet(old(relations), relations, i, Pending, None)
        }
      ensures AllProven(old(relations), old(invitations)) ==> AllProven(relations, invitations)
      ensures Performs(BeginNotify(0, task, scorer), At(now, old(relations), old(invitations)), At(now, relations, invitations))
    {
      ghost var relations0, invitations0 := relations, invitations;
      NotifyPerforms(now, relations, invitations, task, scorer);
      var existing := FirstRelation(relations, task, scorer);
      created := existing.None?;
      if created {
        relations := relations + [Relation(task, scorer, Pending, None)];
      } else if relations[existing.value].status != Accepted {
        relations := relations[existing.value := relations[existing.value].(status := Pending, acceptedAt := None)];
      }
      invitations := invitations + [NewInvitation(task, scorer, now)];
      EvidenceStays(relations0, invitations0, relations, invitations);
    }

    /** `needsMail`: the scorer's first password has still to be delivered, which takes a working mail service. */
    method Resend(task: TaskId, scorer: ScorerId, now: Time, hasEmail: bool, needsMail: bool, mailWorks: bool)
      returns (r: Result<(), Error>)
      modifies this
      ensures r.Err? ==> relations == old(relations) && invitations == old(invitations)
      ensures
        match FirstRelation(old(relations), task, scorer) {
          case None => r == Err(RelationNotFound)
          case Some(i) =>
            if old(relations)[i].status == Inactive then r == Err(RelationInactive)
            else if !hasEmail then r == Err(EmailRequired)
            else if needsMail && !mailWorks then r == Err(MailUnavailable)
            else
              r == Ok(()) && invitations == old(invitations) + [NewInvitation(task, scorer, now)] &&
              FreshInvitation(invitations[|old(invitations)|], task, scorer, now) &&
              if old(relations)[i].status == Accepted then relations == old(relations)
              else
                relations == WithStatus(old(relations), i, Pending, None) &&
                OneRelationSet(old(relations), relations, i, Pending, None)
        }
      ensures AllProven(old(relations), old(invitations)) ==> AllProven(relations, invitations)
      ensures r.Ok? ==>
                var rel := FirstRelation(old(relations), task, scorer);
                rel.Some? &&
                Performs(BeginResend(0, rel.value), At(now, old(relations), old(invitations)), At(now, relations, invitations))
    {
      ghost var relations0, invitations0 := relations, invitations;
      var existing := FirstRelation(relations, task, scorer);
      if existing.None? {
        return Err(RelationNotFound);
      }
      if relations[existing.value].status == Inactive {
        return Err(RelationInactive);
      }
      if !hasEmail {
        return Err(EmailRequired);
      }
      if needsMail && !mailWorks {
        return Err(MailUnavailable);
      }
      ResendPerforms(now, relations, invitations, existing.value);
      invitations := invitations + [NewInvitation(task, scorer, now)];
      if relations[existing.value].status != Accepted {
        relations := relations[existing.value := relations[existing.value].(status := Pending, acceptedAt := None)];
      }
      EvidenceStays(relations0, invitations0, relations, invitations);
      r := Ok(());
    }

    /** Cancels the open invitations of a pending relation and closes it; leaves any other alone. */
    method ExpirePendingRelation(task: TaskId, scorer: ScorerId)
      modifies this
      ensures
        match FirstRelation(old(relations), task, scorer) {
          case None => relations == old(relations) && invitations == old(invitations)
          case Some(i) =>
            if old(relations)[i].status != Pending then relations == old(relations) && invitations == old(invitations)
            else
              invitations == CancelSent(old(invitations), task, scorer) &&
              OwnCancelled(old(invitations), invitations, task, scorer) &&
              relations == WithStatus(old(relations), i, Inactive, old(relations)[i].acceptedAt) &&
              OneRelationSet(old(relations), relations, i, Inactive, old(relations)[i].acceptedAt)
        }
      ensures AllProven(old(relations), old(invitations)) ==> AllProven(relations, invitations)
      ensures invitations != old(invitations) || relations != old(relations) ==>
                var rel := FirstRelation(old(relations), task, scorer);
                rel.Some? && forall now ::
                  Performs(BeginExpire(0, rel.value), At(now, old(relations), old(invitations)), At(now, relations, invitations))
    {
      ghost var relations0, invitations0 := relations, invitations;
      var existing := FirstRelation(relations, task, scorer);
      if existing.None? || relations[existing.value].status != Pending {
        return;
      }
      invitations := CancelSent(invitations, task, scorer);
      relations := relations[existing.value := relations[existing.value].(status := Inactive)];
      EvidenceStays(relations0, invitations0, relations, invitations);
      forall now
        ensures Performs(BeginExpire(0, existing.value), At(now, relations0, invitations0), At(now, relations, invitations))
      {
        ExpirePerforms(now, relations0, invitations0, existing.value);
      }
    }
  }

  /** Evidence survives any change that keeps whose rows are whose, keeps answers, and accepts nothing new
      without evidence. */
  lemma EvidenceStays(relations: seq<Relation>, invitations: seq<Invitation>, relations': seq<Relation>, invitations': seq<Invitation>)
    requires |relations| <= |relations'| && |invitations| <= |invitations'|
    requires forall i :: 0 <= i < |invitations| ==>
               invitations'[i].task == invitations[i].task && invitations'[i].scorer == invitations[i].scorer &&
               (Answered(invitations[i]) ==> Answered(invitations'[i]))
    requires forall r :: 0 <= r < |relations'| && relations'[r].status == Accepted ==>
               || (r < |relations| && relations'[r] == relations[r])
               || (relations'[r].acceptedAt.Some? && exists i :: 0 <= i < |invitations'| && Evidence(invitations'[i], relations'[r]))
    ensures AllProven(relations, invitations) ==> AllProven(relations', invitations')
  {
    if AllProven(relations, invitations) {
      forall r | 0 <= r < |relations'| && relations'[r].status == Accepted
        ensures relations'[r].acceptedAt.Some?
        ensures exists i :: 0 <= i < |invitations'| && Evidence(invitations'[i], relations'[r])
      {
        if r < |relations| && relations'[r] == relations[r] {
          var s := State(0, relations, invitations, map[]);
          assert s.relations[r].status == Accepted;
          var i :| 0 <= i < |s.invitations| && Evidence(s.invitations[i], s.relations[r]);
          assert Evidence(invitations'[i], relations'[r]);
        }
      }
    }
  }
}

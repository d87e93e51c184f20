/** A resend that overlaps an accept, and what the two halves of a resend amount to without overlap. */
module InviteOverlaps {
  import opened Common
  import opened Roles
  import opened Invites
  import opened InviteSeats
  import opened InviteProtocol

  /** Load and save with nothing in between are the one-step forms. */
  lemma ManagingAlone(w: World, req: RequestId, actor: Actor, id: InviteId, pin: Option<OrgId>, token: TokenHash)
    requires PendingUnique(w.db) && req !in w.held && FreshToken(w.db, token)
    ensures Apply(Apply(w, LoadInvite(req, actor, id, pin, Renewal)), SaveInvite(req, token)).db
         == Committed(w.db, Resend(w.db, actor, id, pin, token))
    ensures Apply(Apply(w, LoadInvite(req, actor, id, pin, Withdrawal)), SaveInvite(req, token)).db
         == Committed(w.db, Revoke(w.db, actor, id, pin))
  {
    hide Manageable, CoolingDown, FreshToken, SlotTaken, PendingUnique;
    if Manageable(w.db, actor, id, pin).Ok? {
      OwnSlot(w.db, id);
      var row := w.db.invites[id];
      assert row.(status := Revoked, token := row.token) == row.(status := Revoked);
    }
  }

  lemma OwnSlot(db: Db, id: InviteId)
    requires PendingUnique(db) && id in db.invites
    ensures db.invites[id].status == Pending ==> !SlotTaken(db, id, db.invites[id])
  {
  }

  // ---------------------------------------------------------------- revived after it was redeemed

  /** A live invite that one manager loads to resend it, and that an accept past its checks redeems. */
  ghost predicate Contended(w: World, manager: RequestId, first: RequestId, actor: Actor, id: InviteId, pin: Option<OrgId>, token: TokenHash, uid: UserId) {
    && PendingUnique(w.db) && FreshToken(w.db, token) && manager !in w.held
    && LoadedInvite(w.db, actor, id, pin, Renewal).Ok? && id in w.db.invites && Live(w.db.invites[id], w.db.now)
    && first in w.inflight && w.inflight[first] == ReadyNew(id, w.db.invites[id])
    && uid !in w.db.users && CommitNew(w.db, id, w.db.invites[id], uid).Ok?
  }

  function Overlap(manager: RequestId, first: RequestId, actor: Actor, id: InviteId, pin: Option<OrgId>, token: TokenHash, uid: UserId): seq<Step> {
    [LoadInvite(manager, actor, id, pin, Renewal), Commit(first, uid), SaveInvite(manager, token)]
  }

  /** The accept succeeds, and its invite ends live under a new token. */
  lemma AResendRevivesARedeemedInvite(
    w: World, manager: RequestId, first: RequestId, actor: Actor, id: InviteId, pin: Option<OrgId>, token: TokenHash, uid: UserId)
    requires Contended(w, manager, first, actor, id, pin, token, uid)
    ensures var after := Run(w, Overlap(manager, first, actor, id, pin, token, uid)); var invite := w.db.invites[id];
            && after.replies == w.replies[first := Created(id, uid)] && after.inflight == w.inflight - {first}
            && after.db == w.db.(invites := w.db.invites[id := Renewed(w.db, invite, token)],
                                 users := w.db.users[uid := User(Lower(invite.email), invite.role, Some(invite.org), true)])
  {
    hide LoadedInvite, FreshToken, CommitNew, PendingUnique, SlotTaken, Lower;
    var invite := w.db.invites[id];
    LoadsTheStoredRow(w.db, actor, id, pin);
    CommitNewMeans(w.db, id, invite, uid);
    var w1 := w.(held := w.held[manager := Managed(id, invite, Renewal)]);
    assert Apply(w, LoadInvite(manager, actor, id, pin, Renewal)) == w1;
    var accepted := WithStatus(w.db, id, Accepted);
    var joined := accepted.(users := accepted.users[uid := User(Lower(invite.email), invite.role, Some(invite.org), true)]);
    var w2 := Answer(w1.(db := joined), first, Created(id, uid));
    assert Apply(w1, Commit(first, uid)) == w2;
    StillFree(w.db, w2.db, id, invite, token);
    var w3 := Apply(w2, SaveInvite(manager, token));
    assert w3 == w2.(db := joined.(invites := joined.invites[id := Renewed(w.db, invite, token)]), held := w2.held - {manager});
    RunOfThree(w, w1, w2, w3, LoadInvite(manager, actor, id, pin, Renewal), Commit(first, uid), SaveInvite(manager, token));
    assert w3.db.invites == w.db.invites[id := Renewed(w.db, invite, token)];
  }

  lemma CommitNewMeans(db: Db, id: InviteId, invite: Invite, uid: UserId)
    requires CommitNew(db, id, invite, uid).Ok?
    ensures id in db.invites
    ensures var accepted := WithStatus(db, id, Accepted);
            CommitNew(db, id, invite, uid).value
              == accepted.(users := accepted.users[uid := User(Lower(invite.email), invite.role, Some(invite.org), true)])
  {
  }

  lemma LoadsTheStoredRow(db: Db, actor: Actor, id: InviteId, pin: Option<OrgId>)
    requires LoadedInvite(db, actor, id, pin, Renewal).Ok?
    ensures id in db.invites && LoadedInvite(db, actor, id, pin, Renewal).value == db.invites[id]
  {
    hide CoolingDown;
  }

  lemma StillFree(db: Db, after: Db, id: InviteId, invite: Invite, token: TokenHash)
    requires PendingUnique(db) && FreshToken(db, token) && id in db.invites && db.invites[id] == invite && invite.status == Pending
    requires after.invites == db.invites[id := invite.(status := Accepted)]
    ensures FreshToken(after, token) && !SlotTaken(after, id, invite)
  {
    OwnSlot(db, id);
  }

  lemma RunOfThree(w0: World, w1: World, w2: World, w3: World, s0: Step, s1: Step, s2: Step)
    requires Apply(w0, s0) == w1 && Apply(w1, s1) == w2 && Apply(w2, s2) == w3
    ensures Run(w0, [s0, s1, s2]) == w3
  {
    hide Apply;
    assert [s0, s1, s2][1..] == [s1, s2] && [s1, s2][1..] == [s2] && [s2][1..] == [];
    assert Run(w3, []) == w3;
    assert Run(w2, [s2]) == w3;
  }

  /** So one invite holds a seat as a member and another as an invite, uncharged: a full organization exceeds its cap. */
  lemma ARevivedInviteHoldsASecondSeat(
    w: World, manager: RequestId, first: RequestId, actor: Actor, id: InviteId, pin: Option<OrgId>, token: TokenHash, uid: UserId, resource: Resource)
    requires Contended(w, manager, first, actor, id, pin, token, uid)
    ensures var after := Run(w, Overlap(manager, first, actor, id, pin, token, uid)).db; var invite := w.db.invites[id];
            && Seats(after, invite.org, resource) == Seats(w.db, invite.org, resource) + (if CountedBy(resource, invite.role) then 1 else 0)
            && (CountedBy(resource, invite.role) && !Within(w.db, invite.org, resource) ==> !SeatBound(after))
  {
    hide LoadedInvite, FreshToken, PendingUnique, CommitNew, SeatBound;
    AResendRevivesARedeemedInvite(w, manager, first, actor, id, pin, token, uid);
    var invite := w.db.invites[id];
    var row := User(Lower(invite.email), invite.role, Some(invite.org), true);
    CountUpdate(w.db.users, uid, row, MemberSeat(invite.org, resource));
    CountUpdate(w.db.invites, id, Renewed(w.db, invite, token), InviteSeat(invite.org, resource, w.db.now));
    var after := Run(w, Overlap(manager, first, actor, id, pin, token, uid)).db;
    if CountedBy(resource, invite.role) && !Within(w.db, invite.org, resource) {
      OverLimit(after, invite.org, resource);
    }
  }

  lemma OverLimit(db: Db, org: OrgId, resource: Resource)
    requires !Bounded(db, org, resource)
    ensures !SeatBound(db)
  {
  }

  /** And the new token redeems it again, for the account the first redemption created. */
  lemma ARevivedInviteIsRedeemedTwice(
    w: World, manager: RequestId, first: RequestId, second: RequestId, actor: Actor, id: InviteId, pin: Option<OrgId>, token: TokenHash, uid: UserId, newId: UserId)
    requires Contended(w, manager, first, actor, id, pin, token, uid)
    requires second != first && second !in w.inflight && second !in w.replies
    requires w.db.invites[id].role != Superadmin && w.db.invites[id].org in w.db.orgs && w.db.orgs[w.db.invites[id].org] == Operating
    ensures var after := Run(Run(w, Overlap(manager, first, actor, id, pin, token, uid)),
                             [Read(second, Anonymous, token), Lookup(second), Commit(second, newId)]);
            && first in after.replies && Redeemed(after.replies[first]) == Some(id)
            && second in after.replies && Redeemed(after.replies[second]) == Some(id)
  {
    hide Contended, Apply, Run, Overlap;
    AResendRevivesARedeemedInvite(w, manager, first, actor, id, pin, token, uid);
    ContendedMeans(w, manager, first, actor, id, pin, token, uid);
    var v := Run(w, Overlap(manager, first, actor, id, pin, token, uid));
    var row := v.db.invites[id];
    var v1 := Advance(v, second, HasInvite(Anonymous, id, row));
    var v2 := Advance(v1, second, ReadyMember(id, row, uid));
    var v3 := Answer(v2.(db := WithStatus(v.db, id, Accepted)), second, AlreadyMember(id, uid));
    ReadsTheNewToken(v, w.db, second, token, id);
    FindsTheMember(v1, w.db, second, id, row, uid);
    assert Apply(v2, Commit(second, newId)) == v3 by { CommitsTheMember(v2, second, id, row, uid, newId); }
    RunOfThree(v, v1, v2, v3, Read(second, Anonymous, token), Lookup(second), Commit(second, newId));
  }

  lemma ContendedMeans(w: World, manager: RequestId, first: RequestId, actor: Actor, id: InviteId, pin: Option<OrgId>, token: TokenHash, uid: UserId)
    requires Contended(w, manager, first, actor, id, pin, token, uid)
    ensures id in w.db.invites && w.db.invites[id].status == Pending && FreshToken(w.db, token)
    ensures first in w.inflight && uid !in w.db.users && !EmailTakenIn(w.db, Lower(w.db.invites[id].email))
  {
  }

  lemma ReadsTheNewToken(v: World, before: Db, req: RequestId, token: TokenHash, id: InviteId)
    requires req !in v.inflight && req !in v.replies && id in before.invites && FreshToken(before, token)
    requires v.db.invites == before.invites[id := Renewed(before, before.invites[id], token)] && before.invites[id].status == Pending
    requires v.db.now == before.now && v.db.orgs == before.orgs
    requires before.invites[id].org in before.orgs && before.orgs[before.invites[id].org] == Operating
    ensures Apply(v, Read(req, Anonymous, token)) == Advance(v, req, HasInvite(Anonymous, id, v.db.invites[id]))
  {
    assert v.db.invites[id].token == token;
    assert FindByToken(v.db, token) == Some(id);
  }

  lemma FindsTheMember(v: World, before: Db, req: RequestId, id: InviteId, row: Invite, uid: UserId)
    requires req in v.inflight && v.inflight[req] == HasInvite(Anonymous, id, row) && row.role != Superadmin
    requires uid !in before.users && !EmailTakenIn(before, Lower(row.email))
    requires v.db.users == before.users[uid := User(Lower(row.email), row.role, Some(row.org), true)]
    ensures Apply(v, Lookup(req)) == Advance(v, req, ReadyMember(id, row, uid))
  {
    hide Lower;
    assert v.db.users[uid].email == Lower(row.email);
    assert FindByEmail(v.db, Lower(row.email)) == Some(uid);
  }

  lemma CommitsTheMember(v: World, req: RequestId, id: InviteId, row: Invite, uid: UserId, newId: UserId)
    requires req in v.inflight && v.inflight[req] == ReadyMember(id, row, uid) && id in v.db.invites && v.db.invites[id].status == Pending
    ensures Apply(v, Commit(req, newId)) == Answer(v.(db := WithStatus(v.db, id, Accepted)), req, AlreadyMember(id, uid))
  {
  }
}

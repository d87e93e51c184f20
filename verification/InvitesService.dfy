/**
 The invite service in its own form: an object whose methods update the rows statement by
 statement and undo them when the transaction fails. Each method is tied to the step of
 the protocol it performs.
 */
module InvitesService {
  import opened Common
  import opened Roles
  import opened Invites

  class Service {
    var now: nat
    var orgs: map<OrgId, OrgStatus>
    var quotas: map<(OrgId, Resource), Option<nat>>
    var users: map<UserId, User>
    var invites: map<InviteId, Invite>
    var submissions: map<nat, OwnedRow>
    var gamification: map<UserId, OrgId>

    constructor (db: Db)
      ensures Rows() == db
    {
      now, orgs, quotas, users := db.now, db.orgs, db.quotas, db.users;
      invites, submissions, gamification := db.invites, db.submissions, db.gamification;
    }

    function Rows(): Db
      reads this
    {
      Db(now, orgs, quotas, users, invites, submissions, gamification)
    }

    /** `QuotaService.assertWithinQuota`: the unlimited path takes no count. */
    method AssertWithinQuota(org: OrgId, resource: Resource) returns (ok: bool)
      ensures ok <==> Within(Rows(), org, resource)
    {
      if (org, resource) !in quotas {
        return true;
      }
      var limit := quotas[(org, resource)];
      if limit.None? {
        return true;
      }
      var members := Count(users, MemberSeat(org, resource));
      var reserved := Count(invites, InviteSeat(org, resource, now));
      ok := members + reserved + 1 <= limit.value;
    }

    /** `assertRoleSeat`. */
    method AssertRoleSeat(org: OrgId, role: Role) returns (ok: bool)
      ensures ok <==> WithinRole(Rows(), org, role)
    {
      var resource := SeatResourceFor(role);
      if resource.None? {
        return true;
      }
      ok := AssertWithinQuota(org, resource.value);
    }

    /** The conditional UPDATE; the result is `affected === 1`. */
    method ConsumeInvite(id: InviteId) returns (affected: bool)
      modifies `invites
      ensures affected <==> Consume(old(Rows()), id).Some?
      ensures Rows() == if affected then Consume(old(Rows()), id).value else old(Rows())
    {
      affected := id in invites && invites[id].status == Pending;
      if affected {
        invites := invites[id := invites[id].(status := Accepted)];
      }
    }

    /** `expireStalePending`. */
    method ExpireStale(org: OrgId, email: string)
      modifies `invites
      ensures Rows() == ExpireStalePending(old(Rows()), org, email)
    {
      var rows := invites;
      invites := map i | i in rows ::
        if PendingFor(rows[i], org, email) && rows[i].expiresAt <= now then rows[i].(status := Expired) else rows[i];
    }

    /** `create`: the transaction undoes the sweep when it fails. */
    method Create(actor: Actor, org: OrgId, request: MintRequest, id: InviteId, token: TokenHash) returns (r: Result<InviteId, Reason>)
      modifies `invites
      ensures Rows() == Committed(old(Rows()), Mint(old(Rows()), actor, org, request, id, token))
      ensures r == match Mint(old(Rows()), actor, org, request, id, token) case Ok(_) => Ok(id) case Err(e) => Err(e)
    {
      hide Within, WithinRole, ExpireStalePending, Lower;
      if !MayInvite(actor.role, request.role) {
        return Err(RoleNotInvitable);
      }
      if org !in orgs {
        return Err(OrgNotFound);
      }
      if orgs[org] == Suspended {
        return Err(OrgSuspended);
      }
      var email := Lower(request.email);
      var ttlDays := if request.expiresInDays.Some? then request.expiresInDays.value else DEFAULT_TTL_DAYS;

      var rollback := invites;
      ExpireStale(org, email);
      if exists i :: i in invites && PendingFor(invites[i], org, email) {
        invites := rollback;
        return Err(InviteAlreadyPending);
      }
      var room := AssertWithinQuota(org, MaxUsers);
      if room {
        room := AssertRoleSeat(org, request.role);
      }
      if !room {
        invites := rollback;
        return Err(QuotaExceeded);
      }
      invites := invites[id := Invite(org, email, token, request.role, Pending, now + ttlDays * DAY_MS, 1, Some(now))];
      return Ok(id);
    }

    method ResendInvite(actor: Actor, id: InviteId, pin: Option<OrgId>, token: TokenHash) returns (r: Result<InviteId, Reason>)
      modifies `invites
      ensures Rows() == Committed(old(Rows()), Resend(old(Rows()), actor, id, pin, token))
      ensures r == match Resend(old(Rows()), actor, id, pin, token) case Ok(_) => Ok(id) case Err(e) => Err(e)
    {
      var found := Manageable(Rows(), actor, id, pin);
      if found.Err? {
        return Err(found.error);
      }
      var invite := found.value;
      if invite.lastSentAt.Some? && now < invite.lastSentAt.value + RESEND_COOLDOWN_MS {
        return Err(ResendCooldown);
      }
      if invite.org !in orgs {
        return Err(OrgNotFound);
      }
      invite := invite.(token := token);
      invite := invite.(sendCount := invite.sendCount + 1);
      invite := invite.(lastSentAt := Some(now));
      invite := invite.(expiresAt := now + DEFAULT_TTL_DAYS * DAY_MS);
      invites := invites[id := invite];
      return Ok(id);
    }

    method RevokeInvite(actor: Actor, id: InviteId, pin: Option<OrgId>) returns (r: Result<InviteId, Reason>)
      modifies `invites
      ensures Rows() == Committed(old(Rows()), Revoke(old(Rows()), actor, id, pin))
      ensures r == match Revoke(old(Rows()), actor, id, pin) case Ok(_) => Ok(id) case Err(e) => Err(e)
    {
      var found := Manageable(Rows(), actor, id, pin);
      if found.Err? {
        return Err(found.error);
      }
      invites := invites[id := found.value.(status := Revoked)];
      return Ok(id);
    }

    /** The transaction of `accept` for an address without an account. */
    method AcceptAsNewAccount(id: InviteId, invite: Invite, uid: UserId) returns (r: Result<UserId, Reason>)
      modifies `invites, `users
      ensures Rows() == Committed(old(Rows()), CommitNew(old(Rows()), id, invite, uid))
      ensures r == match CommitNew(old(Rows()), id, invite, uid) case Ok(_) => Ok(uid) case Err(e) => Err(e)
    {
      var rollback := invites;
      var affected := ConsumeInvite(id);
      if !affected {
        return Err(InviteAlreadyAccepted);
      }
      var room := AssertWithinQuota(invite.org, MaxUsers);
      if room {
        room := AssertRoleSeat(invite.org, invite.role);
      }
      if !room {
        invites := rollback;
        return Err(QuotaExceeded);
      }
      var email := Lower(invite.email);
      if exists u :: u in users && users[u].email == email {
        invites := rollback;
        return Err(InviteAlreadyAccepted);
      }
      users := users[uid := User(email, invite.role, Some(invite.org), true)];
      return Ok(uid);
    }

    /** The transaction of `claim`. */
    method ClaimInvite(id: InviteId, invite: Invite, uid: UserId) returns (r: Result<UserId, Reason>)
      modifies `invites, `users, `submissions, `gamification
      ensures Rows() == Committed(old(Rows()), CommitClaim(old(Rows()), id, invite, uid))
      ensures r == match CommitClaim(old(Rows()), id, invite, uid) case Ok(_) => Ok(uid) case Err(e) => Err(e)
    {
      var rollback := invites;
      var affected := ConsumeInvite(id);
      if !affected {
        return Err(InviteAlreadyAccepted);
      }
      var room := AssertWithinQuota(invite.org, MaxUsers);
      if room {
        room := AssertRoleSeat(invite.org, invite.role);
      }
      if !room {
        invites := rollback;
        return Err(QuotaExceeded);
      }
      if uid !in users {
        invites := rollback;
        return Err(UserNotFound);
      }
      users := users[uid := users[uid].(org := Some(invite.org), role := invite.role)];
      gamification := map u | u in gamification :: if u == uid then invite.org else gamification[u];
      submissions := map s | s in submissions ::
        if submissions[s].owner == uid then submissions[s].(org := invite.org) else submissions[s];
      return Ok(uid);
    }
  }
}

/**
 The invite and seat protocol as a step system.

 `Db` holds the rows; every function named after a service method is one database
 transaction (or one single-statement write) on those rows. `World` adds the requests
 that are in flight: `accept` and `claim` first read the invite, then look the account
 up, then commit, and any other step may run in between.
 */
module Invites {
  import opened Common
  import opened Roles

  type UserId = nat
  type InviteId = nat
  type RequestId = nat
  /** Stands for the sha-256 of a raw token; freshly minted tokens are fresh values. */
  type TokenHash = nat

  const DEFAULT_TTL_DAYS := 14
  const DAY_MS := 86_400_000
  const RESEND_COOLDOWN_MS := 120_000

  datatype OrgStatus = Operating | Suspended

  datatype InviteStatus = Pending | Accepted | Revoked | Expired

  datatype User = User(email: string, role: Role, org: Option<OrgId>, active: bool)

  datatype Invite = Invite(
    org: OrgId, email: string, token: TokenHash, role: Role, status: InviteStatus,
    expiresAt: nat, sendCount: nat, lastSentAt: Option<nat>)

  /** A row that denormalises the organization of the user who owns it. */
  datatype OwnedRow = OwnedRow(owner: UserId, org: OrgId)

  datatype Db = Db(
    now: nat,
    orgs: map<OrgId, OrgStatus>,
    quotas: map<(OrgId, Resource), Option<nat>>,
    users: map<UserId, User>,
    invites: map<InviteId, Invite>,
    submissions: map<nat, OwnedRow>,
    gamification: map<UserId, OrgId>)

  datatype Actor = Actor(role: Role, org: Option<OrgId>)

  datatype Reason =
    | RoleNotInvitable | OrgNotFound | OrgSuspended | InviteAlreadyPending | QuotaExceeded
    | InviteNotFound | InviteAlreadyAccepted | InviteRevoked | InviteExpired | ResendCooldown
    | EmailMismatch | UserNotFound | AccountIneligible | AccountDisabled | AccountExists
    | EmailUnavailable | CommunityRestricted | CrossOrg | EmailTaken | UserNotAssignable

  // ---------------------------------------------------------------- seats

  /** A missing row and a null limit both mean unlimited; zero means blocked. */
  function Limit(db: Db, org: OrgId, resource: Resource): Option<nat> {
    if (org, resource) in db.quotas then db.quotas[(org, resource)] else None
  }

  /** A pending invite whose deadline has not passed. */
  predicate Live(invite: Invite, now: nat) {
    invite.status == Pending && invite.expiresAt > now
  }

  function MemberSeat(org: OrgId, resource: Resource): User -> bool {
    (u: User) => u.org == Some(org) && u.active && CountedBy(resource, u.role)
  }

  function InviteSeat(org: OrgId, resource: Resource, now: nat): Invite -> bool {
    (i: Invite) => i.org == org && Live(i, now) && CountedBy(resource, i.role)
  }

  /** `countSeats`: active members plus live pending invites. */
  function Seats(db: Db, org: OrgId, resource: Resource): nat {
    Count(db.users, MemberSeat(org, resource)) + Count(db.invites, InviteSeat(org, resource, db.now))
  }

  /** `assertWithinQuota` for one more seat. */
  predicate Within(db: Db, org: OrgId, resource: Resource) {
    var limit := Limit(db, org, resource);
    limit.None? || Seats(db, org, resource) + 1 <= limit.value
  }

  /** The role's own cap, for the roles that have one. */
  predicate WithinRole(db: Db, org: OrgId, role: Role) {
    var resource := SeatResourceFor(role);
    resource.None? || Within(db, org, resource.value)
  }

  /** The pair of assertions every seat-creating path makes. */
  predicate MayCharge(db: Db, org: OrgId, role: Role) {
    Within(db, org, MaxUsers) && WithinRole(db, org, role)
  }

  /** The promise of the caps: no capped organization is oversubscribed. */
  ghost predicate SeatBound(db: Db) {
    forall org, resource :: Bounded(db, org, resource)
  }

  predicate Bounded(db: Db, org: OrgId, resource: Resource) {
    var limit := Limit(db, org, resource);
    limit.Some? ==> Seats(db, org, resource) <= limit.value
  }

  // ---------------------------------------------------------------- minting

  function WithStatus(db: Db, id: InviteId, status: InviteStatus): Db
    requires id in db.invites
  {
    db.(invites := db.invites[id := db.invites[id].(status := status)])
  }

  /** A pending row of this organization for this lower-cased address. */
  predicate PendingFor(invite: Invite, org: OrgId, email: string) {
    invite.org == org && Lower(invite.email) == email && invite.status == Pending
  }

  /** `expireStalePending`. */
  function ExpireStalePending(db: Db, org: OrgId, email: string): Db {
    db.(invites := map id | id in db.invites ::
          var i := db.invites[id];
          if PendingFor(i, org, email) && i.expiresAt <= db.now then i.(status := Expired) else i)
  }

  predicate Clash(db: Db, org: OrgId, email: string) {
    exists id :: id in db.invites && PendingFor(db.invites[id], org, email)
  }

  datatype MintRequest = MintRequest(email: string, role: Role, expiresInDays: Option<nat>)

  function NewInvite(db: Db, org: OrgId, request: MintRequest, token: TokenHash): Invite {
    var ttl := if request.expiresInDays.Some? then request.expiresInDays.value else DEFAULT_TTL_DAYS;
    Invite(org, Lower(request.email), token, request.role, Pending, db.now + ttl * DAY_MS, 1, Some(db.now))
  }

  /** `create`: the guards, then the transaction; an error rolls everything back. */
  function Mint(db: Db, actor: Actor, org: OrgId, request: MintRequest, id: InviteId, token: TokenHash): Result<Db, Reason> {
    var email := Lower(request.email);
    if !MayInvite(actor.role, request.role) then Err(RoleNotInvitable)
    else if org !in db.orgs then Err(OrgNotFound)
    else if db.orgs[org] == Suspended then Err(OrgSuspended)
    else
      var swept := ExpireStalePending(db, org, email);
      if Clash(swept, org, email) then Err(InviteAlreadyPending)
      else if !MayCharge(swept, org, request.role) then Err(QuotaExceeded)
      else Ok(swept.(invites := swept.invites[id := NewInvite(db, org, request, token)]))
  }

  // ---------------------------------------------------------------- managing

  /** `getManageable`: `pin` is the organization named by the platform route. */
  function Manageable(db: Db, actor: Actor, id: InviteId, pin: Option<OrgId>): (r: Result<Invite, Reason>)
    ensures r.Ok? ==> id in db.invites && r.value == db.invites[id]
  {
    if actor.role != Superadmin && actor.org == Some(COMMUNITY_ORG_ID) then Err(CommunityRestricted)
    else if id !in db.invites then Err(InviteNotFound)
    else
      var invite := db.invites[id];
      if pin.Some? then
        if invite.org != pin.value then Err(InviteNotFound) else Ok(invite)
      else if actor.role != Superadmin && actor.org != Some(invite.org) then Err(CrossOrg)
      else if !MayInvite(actor.role, invite.role) then Err(RoleNotInvitable)
      else Ok(invite)
  }

  /** What `resend` sets on the row it loaded: a new token and deadline, not the status. */
  function Renewed(db: Db, row: Invite, token: TokenHash): Invite {
    row.(token := token, sendCount := row.sendCount + 1, lastSentAt := Some(db.now), expiresAt := db.now + DEFAULT_TTL_DAYS * DAY_MS)
  }

  predicate CoolingDown(db: Db, invite: Invite) {
    invite.lastSentAt.Some? && db.now < invite.lastSentAt.value + RESEND_COOLDOWN_MS
  }

  /** `resend`, run alone. */
  function Resend(db: Db, actor: Actor, id: InviteId, pin: Option<OrgId>, token: TokenHash): Result<Db, Reason> {
    match Manageable(db, actor, id, pin)
    case Err(e) => Err(e)
    case Ok(invite) =>
      if CoolingDown(db, invite) then Err(ResendCooldown)
      else if invite.org !in db.orgs then Err(OrgNotFound)
      else Ok(db.(invites := db.invites[id := Renewed(db, invite, token)]))
  }

  /** `revoke`, run alone: unconditional on the stored status. */
  function Revoke(db: Db, actor: Actor, id: InviteId, pin: Option<OrgId>): Result<Db, Reason> {
    match Manageable(db, actor, id, pin)
    case Err(e) => Err(e)
    case Ok(invite) => Ok(db.(invites := db.invites[id := invite.(status := Revoked)]))
  }

  /** What a manager does with an invite between loading and saving it. */
  datatype Managing = Renewal | Withdrawal

  /** The checks of `resend` and `revoke` on the row they load. */
  function LoadedInvite(db: Db, actor: Actor, id: InviteId, pin: Option<OrgId>, act: Managing): Result<Invite, Reason> {
    match Manageable(db, actor, id, pin)
    case Err(e) => Err(e)
    case Ok(invite) =>
      if act.Renewal? && CoolingDown(db, invite) then Err(ResendCooldown)
      else if act.Renewal? && invite.org !in db.orgs then Err(OrgNotFound)
      else Ok(invite)
  }

  /** Another pending row has this one's address. */
  predicate SlotTaken(db: Db, id: InviteId, row: Invite) {
    exists j :: j in db.invites && j != id && PendingFor(db.invites[j], row.org, Lower(row.email))
  }

  /**
   The save of `resend` and `revoke` writes the whole row as it was loaded, status included, over
   whatever is stored; only the token hash, which is not selected, stays unless it is set. The
   partial unique index refuses a second pending row of one address.
   */
  function SavedInvite(db: Db, id: InviteId, row: Invite, act: Managing, token: TokenHash): Result<Db, Reason> {
    match act
    case Renewal =>
      if row.status == Pending && SlotTaken(db, id, row) then Err(InviteAlreadyPending)
      else Ok(db.(invites := db.invites[id := Renewed(db, row, token)]))
    case Withdrawal =>
      var kept := if id in db.invites then db.invites[id].token else row.token;
      Ok(db.(invites := db.invites[id := row.(status := Revoked, token := kept)]))
  }

  // ---------------------------------------------------------------- redeeming

  datatype Consumable =
    | Usable(id: InviteId, invite: Invite)
    | TimedOut(id: InviteId)
    | Unusable(reason: Reason)

  /** The unique index on the token hash. */
  ghost function FindByToken(db: Db, token: TokenHash): Option<InviteId> {
    if exists id :: id in db.invites && db.invites[id].token == token
    then var id :| id in db.invites && db.invites[id].token == token; Some(id)
    else None
  }

  /** The decisions of `requireConsumable` on the row it loaded. */
  function Judge(db: Db, id: InviteId): Consumable
    requires id in db.invites
  {
    var invite := db.invites[id];
    if invite.status == Accepted then Unusable(InviteAlreadyAccepted)
    else if invite.status == Revoked then Unusable(InviteRevoked)
    else if invite.status == Expired then Unusable(InviteExpired)
    else if invite.expiresAt <= db.now then TimedOut(id)
    else if invite.org !in db.orgs then Unusable(OrgNotFound)
    else if db.orgs[invite.org] == Suspended then Unusable(OrgSuspended)
    else Usable(id, invite)
  }

  ghost function RequireConsumable(db: Db, token: TokenHash): Consumable {
    match FindByToken(db, token)
    case None => Unusable(InviteNotFound)
    case Some(id) => Judge(db, id)
  }

  /** `assertEligible`: refuses a superadmin, a demotion and a disabled account. */
  function Ineligible(user: User, invite: Invite): Option<Reason> {
    if user.role == Superadmin then Some(AccountIneligible)
    else if Rank(user.role) > Rank(invite.role) then Some(AccountIneligible)
    else if !user.active then Some(AccountDisabled)
    else None
  }

  /** `consume`: flips pending to accepted, conditionally on the stored status. */
  function Consume(db: Db, id: InviteId): Option<Db> {
    if id in db.invites && db.invites[id].status == Pending
    then Some(WithStatus(db, id, Accepted))
    else None
  }

  predicate EmailTakenIn(db: Db, email: string) {
    exists u :: u in db.users && db.users[u].email == email
  }

  /** The account-creating transaction of `accept`: consume first, then charge, then insert. */
  function CommitNew(db: Db, id: InviteId, invite: Invite, uid: UserId): Result<Db, Reason> {
    match Consume(db, id)
    case None => Err(InviteAlreadyAccepted)
    case Some(d) =>
      if !MayCharge(d, invite.org, invite.role) then Err(QuotaExceeded)
      else if EmailTakenIn(d, Lower(invite.email)) then Err(InviteAlreadyAccepted)
      else Ok(d.(users := d.users[uid := User(Lower(invite.email), invite.role, Some(invite.org), true)]))
  }

  /** The already-a-member transaction: the invite only stops holding its seat. */
  function CommitMember(db: Db, id: InviteId): Result<Db, Reason> {
    match Consume(db, id)
    case None => Err(InviteAlreadyAccepted)
    case Some(d) => Ok(d)
  }

  /** `restampDenormalisedOrg`. */
  function Restamp(db: Db, uid: UserId, org: OrgId): Db {
    db.(submissions := map r | r in db.submissions ::
          if db.submissions[r].owner == uid then db.submissions[r].(org := org) else db.submissions[r],
        gamification := map u | u in db.gamification :: if u == uid then org else db.gamification[u])
  }

  function MoveUser(db: Db, uid: UserId, org: OrgId, role: Role): Db
    requires uid in db.users
  {
    Restamp(db.(users := db.users[uid := db.users[uid].(org := Some(org), role := role)]), uid, org)
  }

  /** The transaction of `claim`; the account was looked up before it began. */
  function CommitClaim(db: Db, id: InviteId, invite: Invite, uid: UserId): Result<Db, Reason> {
    match Consume(db, id)
    case None => Err(InviteAlreadyAccepted)
    case Some(d) =>
      if !MayCharge(d, invite.org, invite.role) then Err(QuotaExceeded)
      else if uid !in d.users then Err(UserNotFound)
      else Ok(MoveUser(d, uid, invite.org, invite.role))
  }

  // ---------------------------------------------------------------- staff paths

  /** `UsersService.create` with an actor's organization. */
  function StaffCreate(db: Db, org: Option<OrgId>, email: string, role: Role, uid: UserId): Result<Db, Reason> {
    if EmailTakenIn(db, Lower(email)) then Err(EmailTaken)
    else if org.Some? && !MayCharge(db, org.value, role) then Err(QuotaExceeded)
    else Ok(db.(users := db.users[uid := User(Lower(email), role, org, true)]))
  }

  /** What a staff call changes on the account it has loaded. */
  datatype Change = ToActive(active: bool) | ToRole(role: Role)

  function Changed(loaded: User, change: Change): User {
    match change
    case ToActive(active) => loaded.(active := active)
    case ToRole(role) => loaded.(role := role)
  }

  /**
   The transaction of `setAccess` and `setRole`. The account was loaded before it began: the
   caps are checked for the loaded row, and the whole row is saved over whatever is stored.
   Re-activation charges both caps, a role change the role's own.
   */
  function SaveAccount(db: Db, uid: UserId, loaded: User, change: Change): Result<Db, Reason> {
    if uid !in db.users then Err(UserNotFound)
    else if change.ToActive? && change.active && loaded.org.Some? && !MayCharge(db, loaded.org.value, loaded.role) then Err(QuotaExceeded)
    else if change.ToRole? && loaded.org.Some? && !WithinRole(db, loaded.org.value, change.role) then Err(QuotaExceeded)
    else Ok(db.(users := db.users[uid := Changed(loaded, change)]))
  }

  /** `assignOrganization`: moves an unassigned student into an organization. */
  function AssignOrganization(db: Db, uid: UserId, org: OrgId, role: Role): Result<Db, Reason> {
    if uid !in db.users || db.users[uid].org.Some? || db.users[uid].role != Student then Err(UserNotAssignable)
    else if !MayCharge(db, org, role) then Err(QuotaExceeded)
    else Ok(MoveUser(db, uid, org, role))
  }

  // ---------------------------------------------------------------- requests in flight

  datatype Caller = Anonymous | SignedIn(uid: UserId, email: string)

  datatype Phase =
    | Flipping(id: InviteId)
    | HasInvite(caller: Caller, id: InviteId, invite: Invite)
    | ReadyNew(id: InviteId, invite: Invite)
    | ReadyMember(id: InviteId, invite: Invite, uid: UserId)
    | ReadyClaim(id: InviteId, invite: Invite, uid: UserId)

  datatype Reply =
    | Refused(reason: Reason)
    | Created(id: InviteId, uid: UserId)
    | AlreadyMember(id: InviteId, uid: UserId)
    | Joined(id: InviteId, uid: UserId)

  /**
   What a request carries from an earlier read: the organization a session or a worker will
   stamp on practice rows, an account a staff call has loaded, or an invite a manager has.
   */
  datatype Held =
    | Stamp(uid: UserId, org: OrgId)
    | Account(uid: UserId, loaded: User, change: Change)
    | Managed(id: InviteId, row: Invite, act: Managing)

  datatype World = World(db: Db, inflight: map<RequestId, Phase>, replies: map<RequestId, Reply>, held: map<RequestId, Held>)

  datatype Step =
    | Tick(ms: nat)
    | MintStep(actor: Actor, org: OrgId, request: MintRequest, id: InviteId, token: TokenHash)
    | LoadInvite(req: RequestId, actor: Actor, id: InviteId, pin: Option<OrgId>, act: Managing)
    | SaveInvite(req: RequestId, token: TokenHash)
    | Read(req: RequestId, caller: Caller, token: TokenHash)
    | Flip(req: RequestId)
    | Lookup(req: RequestId)
    | Commit(req: RequestId, uid: UserId)
    | ReadStamp(req: RequestId, uid: UserId)
    | InsertSubmission(req: RequestId, row: nat)
    | InsertAggregate(req: RequestId)
    | SetLimit(org: OrgId, resource: Resource, limit: Option<nat>)
    | StaffCreateStep(home: Option<OrgId>, email: string, role: Role, uid: UserId)
    | LoadAccount(req: RequestId, uid: UserId, change: Change)
    | SaveLoaded(req: RequestId)
    | AssignStep(uid: UserId, org: OrgId, role: Role)

  /** A transaction that fails leaves the rows as they were. */
  function Committed(db: Db, r: Result<Db, Reason>): Db {
    match r
    case Ok(d) => d
    case Err(_) => db
  }

  function Answer(w: World, req: RequestId, reply: Reply): World {
    w.(inflight := w.inflight - {req}, replies := w.replies[req := reply])
  }

  function Advance(w: World, req: RequestId, phase: Phase): World {
    w.(inflight := w.inflight[req := phase])
  }

  /** The first half of `accept` and `claim`. */
  ghost function StepRead(w: World, req: RequestId, caller: Caller, token: TokenHash): World {
    if req in w.inflight || req in w.replies then w
    else
      match RequireConsumable(w.db, token)
      case Usable(id, invite) => Advance(w, req, HasInvite(caller, id, invite))
      case TimedOut(id) => Advance(w, req, Flipping(id))
      case Unusable(reason) => Answer(w, req, Refused(reason))
  }

  /** The lazy expiry write, which is keyed by id alone. */
  function StepFlip(w: World, req: RequestId): World {
    if req in w.inflight && w.inflight[req].Flipping? then
      var id := w.inflight[req].id;
      var db := if id in w.db.invites then WithStatus(w.db, id, Expired) else w.db;
      Answer(w.(db := db), req, Refused(InviteExpired))
    else w
  }

  ghost function FindByEmail(db: Db, email: string): Option<UserId> {
    if EmailTakenIn(db, email)
    then var u :| u in db.users && db.users[u].email == email; Some(u)
    else None
  }

  /** What an account that already exists means for the invite. */
  function JudgeExisting(user: User, uid: UserId, id: InviteId, invite: Invite): Result<Phase, Reason> {
    if Ineligible(user, invite).Some? then Err(Ineligible(user, invite).value)
    else if user.org == Some(invite.org) then Ok(ReadyMember(id, invite, uid))
    else if IsClaimableMember(user.org) then Err(AccountExists)
    else Err(EmailUnavailable)
  }

  /** What a signed-in claimer means for the invite. */
  function JudgeClaimer(user: User, uid: UserId, id: InviteId, invite: Invite): Result<Phase, Reason> {
    if Ineligible(user, invite).Some? then Err(Ineligible(user, invite).value)
    else if !IsClaimableMember(user.org) then
      Err(if user.org == Some(invite.org) then AccountExists else EmailUnavailable)
    else Ok(ReadyClaim(id, invite, uid))
  }

  ghost function JudgeCaller(db: Db, caller: Caller, id: InviteId, invite: Invite): Result<Phase, Reason> {
    match caller
    case Anonymous =>
      (match FindByEmail(db, Lower(invite.email))
       case None => Ok(ReadyNew(id, invite))
       case Some(uid) => if uid in db.users then JudgeExisting(db.users[uid], uid, id, invite) else Err(UserNotFound))
    case SignedIn(uid, email) =>
      if invite.email != Lower(email) then Err(EmailMismatch)
      else if uid !in db.users then Err(UserNotFound)
      else JudgeClaimer(db.users[uid], uid, id, invite)
  }

  ghost function StepLookup(w: World, req: RequestId): World {
    if req in w.inflight && w.inflight[req].HasInvite? then
      var p := w.inflight[req];
      match JudgeCaller(w.db, p.caller, p.id, p.invite)
      case Ok(next) => Advance(w, req, next)
      case Err(reason) => Answer(w, req, Refused(reason))
    else w
  }

  /** The transaction a request is ready to run, with the reply it gives on success. */
  function Transaction(db: Db, phase: Phase, newId: UserId): Option<(Result<Db, Reason>, Reply)> {
    match phase
    case ReadyNew(id, invite) =>
      if newId in db.users then None else Some((CommitNew(db, id, invite, newId), Created(id, newId)))
    case ReadyMember(id, _, uid) => Some((CommitMember(db, id), AlreadyMember(id, uid)))
    case ReadyClaim(id, invite, uid) => Some((CommitClaim(db, id, invite, uid), Joined(id, uid)))
    case _ => None
  }

  function StepCommit(w: World, req: RequestId, newId: UserId): World {
    if req !in w.inflight then w
    else
      match Transaction(w.db, w.inflight[req], newId)
      case None => w
      case Some((Ok(d), reply)) => Answer(w.(db := d), req, reply)
      case Some((Err(reason), _)) => Answer(w, req, Refused(reason))
  }

  /** A session token, or the worker's read of the user, fixes the organization of the rows still to be written. */
  function StepReadStamp(w: World, req: RequestId, uid: UserId): World {
    if req in w.held || uid !in w.db.users then w
    else w.(held := w.held[req := Stamp(uid, StampOrg(w.db.users[uid].org))])
  }

  /** The submission insert of a session. */
  function InsertedSubmission(db: Db, stamp: Held, row: nat): Db
    requires stamp.Stamp?
  {
    if stamp.uid !in db.users || row in db.submissions then db
    else db.(submissions := db.submissions[row := OwnedRow(stamp.uid, stamp.org)])
  }

  /** The aggregate insert of the worker, which does nothing on conflict. */
  function InsertedAggregate(db: Db, stamp: Held): Db
    requires stamp.Stamp?
  {
    if stamp.uid !in db.users || stamp.uid in db.gamification then db
    else db.(gamification := db.gamification[stamp.uid := stamp.org])
  }

  function StepInsertSubmission(w: World, req: RequestId, row: nat): World {
    if req in w.held && w.held[req].Stamp? then w.(db := InsertedSubmission(w.db, w.held[req], row)) else w
  }

  function StepInsertAggregate(w: World, req: RequestId): World {
    if req in w.held && w.held[req].Stamp? then w.(db := InsertedAggregate(w.db, w.held[req])) else w
  }

  /** A staff call loads the account, and goes on only if there is something to change. */
  function StepLoadAccount(w: World, req: RequestId, uid: UserId, change: Change): World {
    if req in w.held || uid !in w.db.users || Changed(w.db.users[uid], change) == w.db.users[uid] then w
    else w.(held := w.held[req := Account(uid, w.db.users[uid], change)])
  }

  function StepSaveLoaded(w: World, req: RequestId): World {
    if req in w.held && w.held[req].Account? then
      var h := w.held[req];
      w.(db := Committed(w.db, SaveAccount(w.db, h.uid, h.loaded, h.change)), held := w.held - {req})
    else w
  }

  function StepLoadInvite(w: World, req: RequestId, actor: Actor, id: InviteId, pin: Option<OrgId>, act: Managing): World {
    if req in w.held || LoadedInvite(w.db, actor, id, pin, act).Err? then w
    else w.(held := w.held[req := Managed(id, LoadedInvite(w.db, actor, id, pin, act).value, act)])
  }

  function StepSaveInvite(w: World, req: RequestId, token: TokenHash): World {
    if req in w.held && w.held[req].Managed? then
      var h := w.held[req];
      w.(db := Committed(w.db, SavedInvite(w.db, h.id, h.row, h.act, token)), held := w.held - {req})
    else w
  }

  predicate FreshToken(db: Db, token: TokenHash) {
    forall id :: id in db.invites ==> db.invites[id].token != token
  }

  ghost function Apply(w: World, step: Step): World {
    match step
    case Tick(ms) => w.(db := w.db.(now := w.db.now + ms))
    case MintStep(actor, org, request, id, token) =>
      if id in w.db.invites || !FreshToken(w.db, token) then w
      else w.(db := Committed(w.db, Mint(w.db, actor, org, request, id, token)))
    case LoadInvite(req, actor, id, pin, act) => StepLoadInvite(w, req, actor, id, pin, act)
    case SaveInvite(req, token) => if FreshToken(w.db, token) then StepSaveInvite(w, req, token) else w
    case Read(req, caller, token) => StepRead(w, req, caller, token)
    case Flip(req) => StepFlip(w, req)
    case Lookup(req) => StepLookup(w, req)
    case Commit(req, uid) => StepCommit(w, req, uid)
    case ReadStamp(req, uid) => StepReadStamp(w, req, uid)
    case InsertSubmission(req, row) => StepInsertSubmission(w, req, row)
    case InsertAggregate(req) => StepInsertAggregate(w, req)
    case SetLimit(org, resource, limit) => w.(db := w.db.(quotas := w.db.quotas[(org, resource) := limit]))
    case StaffCreateStep(home, email, role, uid) =>
      if uid in w.db.users then w else w.(db := Committed(w.db, StaffCreate(w.db, home, email, role, uid)))
    case LoadAccount(req, uid, change) => StepLoadAccount(w, req, uid, change)
    case SaveLoaded(req) => StepSaveLoaded(w, req)
    case AssignStep(uid, org, role) => w.(db := Committed(w.db, AssignOrganization(w.db, uid, org, role)))
  }

  /** Any interleaving of any number of requests is one sequence of steps. */
  ghost function Run(w: World, steps: seq<Step>): World
    decreases |steps|
  {
    if steps == [] then w else Run(Apply(w, steps[0]), steps[1..])
  }
}

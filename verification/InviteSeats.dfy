/**
 Seat accounting: the caps hold over every interleaving, accepting a live invite is net
 zero, and the three operations that can break a cap break it exactly under a named guard.
 */
module InviteSeats {
  import opened Common
  import opened Roles
  import opened Invites

  /** Writing a user row keeps every cap that the row newly counts against and that had room. */
  lemma UserWriteKeepsBound(db: Db, uid: UserId, row: User)
    requires SeatBound(db)
    requires forall org, resource ::
               MemberSeat(org, resource)(row) && !(uid in db.users && MemberSeat(org, resource)(db.users[uid]))
               ==> Within(db, org, resource)
    ensures SeatBound(db.(users := db.users[uid := row]))
  {
    var after := db.(users := db.users[uid := row]);
    forall org, resource
      ensures Bounded(after, org, resource)
    {
      assert Bounded(db, org, resource);
      CountUpdate(db.users, uid, row, MemberSeat(org, resource));
    }
  }

  lemma InviteWriteKeepsBound(db: Db, id: InviteId, row: Invite)
    requires SeatBound(db)
    requires forall org, resource ::
               InviteSeat(org, resource, db.now)(row) && !(id in db.invites && InviteSeat(org, resource, db.now)(db.invites[id]))
               ==> Within(db, org, resource)
    ensures SeatBound(db.(invites := db.invites[id := row]))
  {
    var after := db.(invites := db.invites[id := row]);
    forall org, resource
      ensures Bounded(after, org, resource)
    {
      assert Bounded(db, org, resource);
      CountUpdate(db.invites, id, row, InviteSeat(org, resource, db.now));
    }
  }

  /** The two assertions made at every seat-creating path cover every cap that counts the role. */
  lemma MayChargeCovers(db: Db, org: OrgId, role: Role)
    requires MayCharge(db, org, role)
    ensures forall resource :: CountedBy(resource, role) ==> Within(db, org, resource)
  {
    forall resource | CountedBy(resource, role)
      ensures Within(db, org, resource)
    {
      ChargedIffCounted(resource, role);
    }
  }

  /** Losing live invites, with the members untouched, keeps every cap. */
  lemma FewerLiveInvitesKeepBound(before: Db, after: Db)
    requires SeatBound(before)
    requires after.users == before.users && after.quotas == before.quotas
    requires forall id :: id in after.invites && Live(after.invites[id], after.now) ==>
               id in before.invites && Live(before.invites[id], before.now)
               && after.invites[id].org == before.invites[id].org && after.invites[id].role == before.invites[id].role
    ensures SeatBound(after)
  {
    forall org, resource
      ensures Bounded(after, org, resource)
    {
      assert Bounded(before, org, resource);
      CountShrinks(before.invites, after.invites, InviteSeat(org, resource, before.now), InviteSeat(org, resource, after.now));
    }
  }

  lemma MintKeepsBound(db: Db, actor: Actor, org: OrgId, request: MintRequest, id: InviteId, token: TokenHash)
    requires SeatBound(db)
    ensures SeatBound(Committed(db, Mint(db, actor, org, request, id, token)))
  {
    var swept := ExpireStalePending(db, org, Lower(request.email));
    FewerLiveInvitesKeepBound(db, swept);
    if Mint(db, actor, org, request, id, token).Ok? {
      MayChargeCovers(swept, org, request.role);
      InviteWriteKeepsBound(swept, id, NewInvite(db, org, request, token));
    }
  }

  /** Consuming never adds a seat, whether or not the invite has timed out meanwhile. */
  lemma ConsumeKeepsBound(db: Db, id: InviteId)
    requires SeatBound(db) && Consume(db, id).Some?
    ensures SeatBound(Consume(db, id).value)
  {
    InviteWriteKeepsBound(db, id, db.invites[id].(status := Accepted));
  }

  lemma CommitNewKeepsBound(db: Db, id: InviteId, invite: Invite, uid: UserId)
    requires SeatBound(db) && uid !in db.users
    ensures SeatBound(Committed(db, CommitNew(db, id, invite, uid)))
  {
    if CommitNew(db, id, invite, uid).Ok? {
      var d := Consume(db, id).value;
      ConsumeKeepsBound(db, id);
      MayChargeCovers(d, invite.org, invite.role);
      UserWriteKeepsBound(d, uid, User(Lower(invite.email), invite.role, Some(invite.org), true));
    }
  }

  lemma MoveUserKeepsBound(db: Db, uid: UserId, org: OrgId, role: Role)
    requires SeatBound(db) && uid in db.users && MayCharge(db, org, role)
    ensures SeatBound(MoveUser(db, uid, org, role))
  {
    var row := db.users[uid].(org := Some(org), role := role);
    MayChargeCovers(db, org, role);
    UserWriteKeepsBound(db, uid, row);
    FewerLiveInvitesKeepBound(db.(users := db.users[uid := row]), MoveUser(db, uid, org, role));
  }

  lemma CommitClaimKeepsBound(db: Db, id: InviteId, invite: Invite, uid: UserId)
    requires SeatBound(db)
    ensures SeatBound(Committed(db, CommitClaim(db, id, invite, uid)))
  {
    if CommitClaim(db, id, invite, uid).Ok? {
      ConsumeKeepsBound(db, id);
      MoveUserKeepsBound(Consume(db, id).value, uid, invite.org, invite.role);
    }
  }

  lemma CommitStepKeepsBound(w: World, req: RequestId, uid: UserId)
    requires SeatBound(w.db)
    ensures SeatBound(StepCommit(w, req, uid).db)
  {
    if req in w.inflight {
      match w.inflight[req]
      case ReadyNew(id, invite) =>
        if uid !in w.db.users {
          CommitNewKeepsBound(w.db, id, invite, uid);
        }
      case ReadyMember(id, _, _) =>
        if Consume(w.db, id).Some? {
          ConsumeKeepsBound(w.db, id);
        }
      case ReadyClaim(id, invite, u) =>
        CommitClaimKeepsBound(w.db, id, invite, u);
      case Flipping(_) =>
      case HasInvite(_, _, _) =>
    }
  }

  lemma FlipKeepsBound(w: World, req: RequestId)
    requires SeatBound(w.db)
    ensures SeatBound(StepFlip(w, req).db)
  {
    if req in w.inflight && w.inflight[req].Flipping? && w.inflight[req].id in w.db.invites {
      var id := w.inflight[req].id;
      InviteWriteKeepsBound(w.db, id, w.db.invites[id].(status := Expired));
    }
  }

  lemma StaffStepsKeepBound(db: Db, uid: UserId, org: OrgId, home: Option<OrgId>, email: string, role: Role)
    requires SeatBound(db)
    ensures uid !in db.users ==> SeatBound(Committed(db, StaffCreate(db, home, email, role, uid)))
    ensures SeatBound(Committed(db, AssignOrganization(db, uid, org, role)))
  {
    if uid !in db.users && StaffCreate(db, home, email, role, uid).Ok? {
      if home.Some? { MayChargeCovers(db, home.value, role); }
      UserWriteKeepsBound(db, uid, User(Lower(email), role, home, true));
    }
    if uid in db.users && AssignOrganization(db, uid, org, role).Ok? {
      MoveUserKeepsBound(db, uid, org, role);
    }
  }

  // ---------------------------------------------------------------- saving a loaded account

  /** A role change restores an active membership the account has lost since it was loaded, in a full organization. */
  predicate RestoresLostSeat(db: Db, uid: UserId, loaded: User, change: Change) {
    change.ToRole? && loaded.active && loaded.org.Some?
    && !(uid in db.users && db.users[uid].active && db.users[uid].org == loaded.org)
    && !Within(db, loaded.org.value, MaxUsers)
  }

  /** An access change is charged as saved; a role change keeps every cap exactly when it restores no lost seat. */
  lemma SaveAccountKeepsBoundExactlyWhen(db: Db, uid: UserId, loaded: User, change: Change)
    requires SeatBound(db) && SaveAccount(db, uid, loaded, change).Ok?
    ensures SeatBound(SaveAccount(db, uid, loaded, change).value) <==> !RestoresLostSeat(db, uid, loaded, change)
  {
    var row := Changed(loaded, change);
    if RestoresLostSeat(db, uid, loaded, change) {
      var org := loaded.org.value;
      assert Bounded(db, org, MaxUsers);
      CountUpdate(db.users, uid, row, MemberSeat(org, MaxUsers));
      assert !Bounded(SaveAccount(db, uid, loaded, change).value, org, MaxUsers);
    } else {
      if change.ToActive? && change.active && loaded.org.Some? { MayChargeCovers(db, loaded.org.value, loaded.role); }
      forall o, resource | MemberSeat(o, resource)(row) && !MemberSeat(o, resource)(db.users[uid])
        ensures Within(db, o, resource)
      {
        ChargedIffCounted(resource, row.role);
      }
      UserWriteKeepsBound(db, uid, row);
    }
  }

  /** Such a save is reached: a member of a full organization is loaded for another role, deactivated, replaced, and then saved active again. */
  lemma ARoleChangeRestoresALostSeat(
    w: World, x: RequestId, y: RequestId, uid: UserId, org: OrgId, role: Role, email: string, newId: UserId)
    requires x !in w.held && y !in w.held && x != y
    requires uid in w.db.users && w.db.users[uid].org == Some(org) && w.db.users[uid].active && w.db.users[uid].role != role
    requires newId !in w.db.users && !EmailTakenIn(w.db, Lower(email))
    requires Limit(w.db, org, MaxUsers) == Some(Seats(w.db, org, MaxUsers))
    requires forall resource :: resource != MaxUsers ==> Limit(w.db, org, resource).None?
    ensures var run := [LoadAccount(x, uid, ToRole(role)), LoadAccount(y, uid, ToActive(false)), SaveLoaded(y),
                        StaffCreateStep(Some(org), email, Student, newId), SaveLoaded(x)];
            !SeatBound(Run(w, run).db)
  {
    hide Seats, Limit, EmailTakenIn, Lower, Apply, SeatBound, MemberSeat;
    var u := w.db.users[uid];
    var off := w.db.(users := w.db.users[uid := u.(active := false)]);
    var replaced := off.(users := off.users[newId := User(Lower(email), Student, Some(org), true)]);
    var restored := replaced.(users := replaced.users[uid := u.(role := role)]);
    SeatsAfter(w.db, uid, u.(active := false), org);
    SeatsAfter(off, newId, User(Lower(email), Student, Some(org), true), org);
    SeatsAfter(replaced, uid, u.(role := role), org);
    assert Seats(off, org, MaxUsers) + 1 == Seats(w.db, org, MaxUsers) == Seats(replaced, org, MaxUsers) by {
      MemberCounts(w.db.users[uid], org);
      MemberCounts(u.(active := false), org);
      MemberCounts(User(Lower(email), Student, Some(org), true), org);
    }
    assert Seats(restored, org, MaxUsers) == Seats(w.db, org, MaxUsers) + 1 by {
      MemberCounts(u.(active := false), org);
      MemberCounts(u.(role := role), org);
    }
    var w1 := w.(held := w.held[x := Account(uid, u, ToRole(role))]);
    var w2 := w1.(held := w1.held[y := Account(uid, u, ToActive(false))]);
    var w3 := w2.(db := off, held := w2.held - {y});
    var w4 := w3.(db := replaced);
    var w5 := w4.(db := restored, held := w4.held - {x});
    Loads(w, x, uid, ToRole(role));
    Loads(w1, y, uid, ToActive(false));
    Saves(w2, y, uid, u, ToActive(false));
    Creates(w3, w.db, org, email, newId);
    Saves(w4, x, uid, u, ToRole(role));
    RunOfFive(w, w1, w2, w3, w4, w5, LoadAccount(x, uid, ToRole(role)), LoadAccount(y, uid, ToActive(false)), SaveLoaded(y),
              StaffCreateStep(Some(org), email, Student, newId), SaveLoaded(x));
    Oversubscribed(restored, org);
  }

  lemma Oversubscribed(db: Db, org: OrgId)
    requires Limit(db, org, MaxUsers).Some? && Limit(db, org, MaxUsers).value < Seats(db, org, MaxUsers)
    ensures !SeatBound(db)
  {
    assert !Bounded(db, org, MaxUsers);
  }

  lemma MemberCounts(u: User, org: OrgId)
    requires u.org == Some(org)
    ensures MemberSeat(org, MaxUsers)(u) <==> u.active
  {
  }

  lemma Loads(w: World, req: RequestId, uid: UserId, change: Change)
    requires req !in w.held && uid in w.db.users && Changed(w.db.users[uid], change) != w.db.users[uid]
    ensures Apply(w, LoadAccount(req, uid, change)) == w.(held := w.held[req := Account(uid, w.db.users[uid], change)])
  {
  }

  /** Nothing is charged for a deactivation, and no role cap where there is none. */
  lemma Saves(w: World, req: RequestId, uid: UserId, loaded: User, change: Change)
    requires req in w.held && w.held[req] == Account(uid, loaded, change) && uid in w.db.users
    requires change == ToActive(false)
             || (change.ToRole? && loaded.org.Some? && forall resource :: resource != MaxUsers ==> Limit(w.db, loaded.org.value, resource).None?)
    ensures Apply(w, SaveLoaded(req)) == w.(db := w.db.(users := w.db.users[uid := Changed(loaded, change)]), held := w.held - {req})
  {
    hide Limit;
  }

  lemma Creates(w: World, before: Db, org: OrgId, email: string, newId: UserId)
    requires newId !in w.db.users && !EmailTakenIn(before, Lower(email))
    requires forall u :: u in w.db.users ==> u in before.users && w.db.users[u].email == before.users[u].email
    requires Limit(w.db, org, MaxUsers).Some? && Seats(w.db, org, MaxUsers) < Limit(w.db, org, MaxUsers).value
    requires forall resource :: resource != MaxUsers ==> Limit(w.db, org, resource).None?
    ensures Apply(w, StaffCreateStep(Some(org), email, Student, newId))
         == w.(db := w.db.(users := w.db.users[newId := User(Lower(email), Student, Some(org), true)]))
  {
    hide Limit, Seats, Lower;
  }

  /** Writing one account moves the total by that account; limits stay. */
  lemma SeatsAfter(db: Db, uid: UserId, row: User, org: OrgId)
    ensures var after := db.(users := db.users[uid := row]);
            && Seats(after, org, MaxUsers) == Seats(db, org, MaxUsers)
                 - (if uid in db.users && MemberSeat(org, MaxUsers)(db.users[uid]) then 1 else 0) + (if MemberSeat(org, MaxUsers)(row) then 1 else 0)
            && forall resource :: Limit(after, org, resource) == Limit(db, org, resource)
  {
    CountUpdate(db.users, uid, row, MemberSeat(org, MaxUsers));
  }

  lemma RunOfFive(w0: World, w1: World, w2: World, w3: World, w4: World, w5: World, s0: Step, s1: Step, s2: Step, s3: Step, s4: Step)
    requires Apply(w0, s0) == w1 && Apply(w1, s1) == w2 && Apply(w2, s2) == w3 && Apply(w3, s3) == w4 && Apply(w4, s4) == w5
    ensures Run(w0, [s0, s1, s2, s3, s4]) == w5
  {
    hide Apply;
    assert [s0, s1, s2, s3, s4][1..] == [s1, s2, s3, s4] && [s1, s2, s3, s4][1..] == [s2, s3, s4];
    assert [s2, s3, s4][1..] == [s3, s4] && [s3, s4][1..] == [s4] && [s4][1..] == [];
    assert Run(w5, []) == w5;
    assert Run(w4, [s4]) == w5;
    assert Run(w3, [s3, s4]) == w5;
    assert Run(w2, [s2, s3, s4]) == w5;
  }

  // ---------------------------------------------------------------- saving a loaded invite

  /** A renewal puts back a pending row where the stored one holds no seat and a cap that counts its role is full. */
  ghost predicate RevivesSeat(db: Db, id: InviteId, row: Invite, act: Managing) {
    act.Renewal? && row.status == Pending
    && exists resource :: CountedBy(resource, row.role) && !Within(db, row.org, resource)
                          && !(id in db.invites && InviteSeat(row.org, resource, db.now)(db.invites[id]))
  }

  /** Neither save is charged: it keeps every cap exactly when it revives no seat in a full organization. */
  lemma SaveInviteKeepsBoundExactlyWhen(db: Db, id: InviteId, row: Invite, act: Managing, token: TokenHash)
    requires SeatBound(db) && SavedInvite(db, id, row, act, token).Ok?
    ensures SeatBound(SavedInvite(db, id, row, act, token).value) <==> !RevivesSeat(db, id, row, act)
  {
    var after := SavedInvite(db, id, row, act, token).value;
    forall org, resource
      ensures Bounded(after, org, resource) <==>
                !(InviteSeat(org, resource, db.now)(after.invites[id]) && !Within(db, org, resource)
                  && !(id in db.invites && InviteSeat(org, resource, db.now)(db.invites[id])))
    {
      assert Bounded(db, org, resource);
      CountUpdate(db.invites, id, after.invites[id], InviteSeat(org, resource, db.now));
    }
    if RevivesSeat(db, id, row, act) {
      var resource :| CountedBy(resource, row.role) && !Within(db, row.org, resource)
                      && !(id in db.invites && InviteSeat(row.org, resource, db.now)(db.invites[id]));
      assert !Bounded(after, row.org, resource);
    }
  }

  // ---------------------------------------------------------------- the other two ways to break a cap

  /** Some cap of the invite's organization that counts its role is already full. */
  ghost predicate AtCap(db: Db, org: OrgId, role: Role) {
    exists resource :: CountedBy(resource, role) && !Within(db, org, resource)
  }

  /** A pending row whose deadline has passed: it no longer holds a seat. */
  predicate TimedOutPending(db: Db, id: InviteId) {
    id in db.invites && db.invites[id].status == Pending && db.invites[id].expiresAt <= db.now
  }

  /** What a successful resend, run alone, does to each seat count. */
  lemma ResendSeats(db: Db, actor: Actor, id: InviteId, pin: Option<OrgId>, token: TokenHash, org: OrgId, resource: Resource)
    requires Resend(db, actor, id, pin, token).Ok?
    ensures var after := Resend(db, actor, id, pin, token).value;
            Seats(after, org, resource) == Seats(db, org, resource)
              + if TimedOutPending(db, id) && db.invites[id].org == org && CountedBy(resource, db.invites[id].role) then 1 else 0
  {
    var after := Resend(db, actor, id, pin, token).value;
    CountUpdate(db.invites, id, after.invites[id], InviteSeat(org, resource, db.now));
  }

  /**
   A resend is not charged. Run alone it keeps every cap unless it revives a timed-out pending
   invite of an organization that is already full, and then it breaks a cap.
   */
  lemma ResendKeepsBoundExactlyWhen(db: Db, actor: Actor, id: InviteId, pin: Option<OrgId>, token: TokenHash)
    requires SeatBound(db) && Resend(db, actor, id, pin, token).Ok?
    ensures SeatBound(Resend(db, actor, id, pin, token).value)
       <==> !(TimedOutPending(db, id) && AtCap(db, db.invites[id].org, db.invites[id].role))
  {
    var after := Resend(db, actor, id, pin, token).value;
    var invite := db.invites[id];
    forall org, resource
      ensures Bounded(after, org, resource) <==>
                !(TimedOutPending(db, id) && invite.org == org && CountedBy(resource, invite.role) && !Within(db, org, resource))
    {
      assert Bounded(db, org, resource);
      ResendSeats(db, actor, id, pin, token, org, resource);
    }
    if TimedOutPending(db, id) && AtCap(db, invite.org, invite.role) {
      var resource :| CountedBy(resource, invite.role) && !Within(db, invite.org, resource);
      assert !Bounded(after, invite.org, resource);
    }
  }

  /** Setting a limit keeps the bound exactly when the new limit is not below the seats in use. */
  lemma SetLimitKeepsBoundExactlyWhen(w: World, org: OrgId, resource: Resource, limit: Option<nat>)
    requires SeatBound(w.db)
    ensures SeatBound(Apply(w, SetLimit(org, resource, limit)).db)
       <==> limit.None? || Seats(w.db, org, resource) <= limit.value
  {
    var after := Apply(w, SetLimit(org, resource, limit)).db;
    forall o, r
      ensures Seats(after, o, r) == Seats(w.db, o, r)
      ensures (o, r) != (org, resource) ==> Bounded(after, o, r)
    {
      assert Bounded(w.db, o, r);
    }
    assert Bounded(after, org, resource) <==> limit.None? || Seats(w.db, org, resource) <= limit.value;
  }

  /** A full organization of one: its member holds the only seat while an old invite lies timed out. */
  lemma ResendCanOversubscribe()
    ensures exists db: Db, actor, id, token ::
              SeatBound(db) && Resend(db, actor, id, None, token).Ok?
              && !SeatBound(Resend(db, actor, id, None, token).value)
  {
    var org := "a";
    var invite := Invite(org, "new@x", 0, Student, Pending, 1, 1, None);
    var db := Db(2, map[org := Operating], map[(org, MaxUsers) := Some(1)],
                 map[0 := User("old@x", Student, Some(org), true)], map[7 := invite], map[], map[]);
    var actor := Actor(Superadmin, None);
    forall resource
      ensures Matching(db.invites, InviteSeat(org, resource, 2)) == {}
      ensures forall o, r :: Limit(db, o, r).Some? ==> (o, r) == (org, MaxUsers)
    {
    }
    assert Matching(db.users, MemberSeat(org, MaxUsers)) == {0};
    assert Seats(db, org, MaxUsers) == 1;
    assert forall o, r :: Bounded(db, o, r);
    assert !Within(db, org, MaxUsers) && CountedBy(MaxUsers, Student);
    assert Resend(db, actor, 7, None, 1).Ok?;
    ResendKeepsBoundExactlyWhen(db, actor, 7, None, 1);
  }

  // ---------------------------------------------------------------- every run

  /** The guarded steps: no saved row that puts a seat back in a full organization, no limit below the seats in use. */
  ghost predicate Disciplined(w: World, step: Step) {
    match step
    case SaveInvite(req, token) =>
      req in w.held && w.held[req].Managed? && FreshToken(w.db, token)
      && SavedInvite(w.db, w.held[req].id, w.held[req].row, w.held[req].act, token).Ok?
      ==> !RevivesSeat(w.db, w.held[req].id, w.held[req].row, w.held[req].act)
    case SetLimit(org, resource, limit) => limit.Some? ==> Seats(w.db, org, resource) <= limit.value
    case SaveLoaded(req) =>
      req in w.held && w.held[req].Account? && SaveAccount(w.db, w.held[req].uid, w.held[req].loaded, w.held[req].change).Ok?
      ==> !RestoresLostSeat(w.db, w.held[req].uid, w.held[req].loaded, w.held[req].change)
    case _ => true
  }

  ghost predicate DisciplinedRun(w: World, steps: seq<Step>)
    decreases |steps|
  {
    steps == [] || (Disciplined(w, steps[0]) && DisciplinedRun(Apply(w, steps[0]), steps[1..]))
  }

  /** A step of any kind keeps every cap exactly under its guard. */
  lemma StepKeepsBoundExactlyWhen(w: World, step: Step)
    requires SeatBound(w.db)
    ensures SeatBound(Apply(w, step).db) <==> Disciplined(w, step)
  {
    hide Mint, StepFlip, StepCommit, StaffCreate, AssignOrganization, StepSaveLoaded, StepSaveInvite, RestoresLostSeat, RevivesSeat;
    hide SaveAccount, SavedInvite, FreshToken;
    hide StepRead, StepLookup, StepReadStamp, StepInsertSubmission, StepInsertAggregate, StepLoadAccount, StepLoadInvite;
    match step
    case Tick(ms) => FewerLiveInvitesKeepBound(w.db, w.db.(now := w.db.now + ms));
    case Read(_, _, _) => SeatlessStep(w, step);
    case Lookup(_) => SeatlessStep(w, step);
    case ReadStamp(_, _) => SeatlessStep(w, step);
    case InsertSubmission(_, _) => SeatlessStep(w, step);
    case InsertAggregate(_) => SeatlessStep(w, step);
    case LoadAccount(_, _, _) => SeatlessStep(w, step);
    case LoadInvite(_, _, _, _, _) => SeatlessStep(w, step);
    case MintStep(actor, org, request, id, token) => MintKeepsBound(w.db, actor, org, request, id, token);
    case SaveInvite(req, token) => SaveInviteStep(w, req, token);
    case Flip(req) => FlipKeepsBound(w, req);
    case Commit(req, uid) => CommitStepKeepsBound(w, req, uid);
    case SetLimit(org, resource, limit) => SetLimitKeepsBoundExactlyWhen(w, org, resource, limit);
    case StaffCreateStep(home, email, role, uid) => StaffStepsKeepBound(w.db, uid, "", home, email, role);
    case AssignStep(uid, org, role) => StaffStepsKeepBound(w.db, uid, org, None, "", role);
    case SaveLoaded(req) => SaveLoadedStep(w, req);
  }

  lemma SaveInviteStep(w: World, req: RequestId, token: TokenHash)
    requires SeatBound(w.db)
    ensures SeatBound(Apply(w, SaveInvite(req, token)).db) <==> Disciplined(w, SaveInvite(req, token))
  {
    hide SeatBound, SavedInvite, RevivesSeat, FreshToken;
    if req in w.held && w.held[req].Managed? {
      var h := w.held[req];
      if SavedInvite(w.db, h.id, h.row, h.act, token).Ok? {
        SaveInviteKeepsBoundExactlyWhen(w.db, h.id, h.row, h.act, token);
      }
    }
  }

  lemma SaveLoadedStep(w: World, req: RequestId)
    requires SeatBound(w.db)
    ensures SeatBound(Apply(w, SaveLoaded(req)).db) <==> Disciplined(w, SaveLoaded(req))
  {
    hide SeatBound, SaveAccount, RestoresLostSeat;
    if req in w.held && w.held[req].Account? {
      var h := w.held[req];
      if SaveAccount(w.db, h.uid, h.loaded, h.change).Ok? {
        SaveAccountKeepsBoundExactlyWhen(w.db, h.uid, h.loaded, h.change);
      }
    }
  }

  /** Requests that read, and inserts of practice rows, touch no seat. */
  lemma SeatlessStep(w: World, step: Step)
    requires SeatBound(w.db)
    requires step.Read? || step.Lookup? || step.ReadStamp? || step.InsertSubmission? || step.InsertAggregate? || step.LoadAccount? || step.LoadInvite?
    ensures SeatBound(Apply(w, step).db)
  {
    FewerLiveInvitesKeepBound(w.db, Apply(w, step).db);
  }

  /** No interleaving of guarded steps oversubscribes a capped organization. */
  lemma {:induction false} SeatBoundOverEveryRun(w: World, steps: seq<Step>)
    requires SeatBound(w.db) && DisciplinedRun(w, steps)
    ensures SeatBound(Run(w, steps).db)
    decreases |steps|
  {
    if steps != [] {
      StepKeepsBoundExactlyWhen(w, steps[0]);
      SeatBoundOverEveryRun(Apply(w, steps[0]), steps[1..]);
    }
  }

  // ---------------------------------------------------------------- net zero

  /** Consuming a live invite gives back exactly the seats it reserved. */
  lemma ConsumeReleases(db: Db, id: InviteId, resource: Resource)
    requires id in db.invites && Live(db.invites[id], db.now)
    ensures var invite := db.invites[id];
            Seats(Consume(db, id).value, invite.org, resource)
              == Seats(db, invite.org, resource) - if CountedBy(resource, invite.role) then 1 else 0
  {
    var invite := db.invites[id];
    CountUpdate(db.invites, id, invite.(status := Accepted), InviteSeat(invite.org, resource, db.now));
  }

  /** Whenever the caps hold, neither check can refuse the holder of a live invite. */
  lemma AcceptingALiveInviteIsNetZero(db: Db, id: InviteId, uid: UserId)
    requires SeatBound(db) && id in db.invites && Live(db.invites[id], db.now) && uid !in db.users
    ensures MayCharge(Consume(db, id).value, db.invites[id].org, db.invites[id].role)
    ensures var r := CommitNew(db, id, db.invites[id], uid);
            r.Err? <==> EmailTakenIn(db, Lower(db.invites[id].email))
    ensures var r := CommitNew(db, id, db.invites[id], uid);
            r.Ok? ==> forall resource :: Seats(r.value, db.invites[id].org, resource) == Seats(db, db.invites[id].org, resource)
  {
    var invite := db.invites[id];
    var d := Consume(db, id).value;
    forall resource
      ensures CountedBy(resource, invite.role) ==> Within(d, invite.org, resource)
    {
      assert Bounded(db, invite.org, resource);
      ConsumeReleases(db, id, resource);
    }
    ChargedIffCounted(MaxProfessors, invite.role);
    ChargedIffCounted(MaxStudents, invite.role);
    var row := User(Lower(invite.email), invite.role, Some(invite.org), true);
    forall resource
      ensures Seats(d.(users := d.users[uid := row]), invite.org, resource) == Seats(db, invite.org, resource)
    {
      ConsumeReleases(db, id, resource);
      CountUpdate(d.users, uid, row, MemberSeat(invite.org, resource));
    }
  }

  /** The same transaction with its first two steps exchanged. */
  function ChargeThenConsume(db: Db, id: InviteId, invite: Invite, uid: UserId): Result<Db, Reason> {
    if !MayCharge(db, invite.org, invite.role) then Err(QuotaExceeded)
    else
      match Consume(db, id)
      case None => Err(InviteAlreadyAccepted)
      case Some(d) =>
        if EmailTakenIn(d, Lower(invite.email)) then Err(InviteAlreadyAccepted)
        else Ok(d.(users := d.users[uid := User(Lower(invite.email), invite.role, Some(invite.org), true)]))
  }

  /** Charging first refuses exactly the invitees of a full organization, whose seat was being held. */
  lemma ChargingFirstRefusesExactlyAtCap(db: Db, id: InviteId, uid: UserId)
    requires SeatBound(db) && id in db.invites && Live(db.invites[id], db.now) && uid !in db.users
    requires !EmailTakenIn(db, Lower(db.invites[id].email))
    ensures CommitNew(db, id, db.invites[id], uid).Ok?
    ensures ChargeThenConsume(db, id, db.invites[id], uid).Err?
       <==> AtCap(db, db.invites[id].org, db.invites[id].role)
  {
    var invite := db.invites[id];
    AcceptingALiveInviteIsNetZero(db, id, uid);
    ChargedIffCounted(MaxUsers, invite.role);
    ChargedIffCounted(MaxProfessors, invite.role);
    ChargedIffCounted(MaxStudents, invite.role);
    if MayCharge(db, invite.org, invite.role) {
      MayChargeCovers(db, invite.org, invite.role);
    }
  }
}

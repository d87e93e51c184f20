/**
 The organization stamped on submissions and gamification rows. A session or a worker reads
 it well before it inserts, and claims, assignments and staff saves may come in between; the
 model says for every run exactly which rows are then left with the wrong stamp.
 */
module Attribution {
  import opened Common
  import opened Roles
  import opened Invites
  import opened InviteProtocol

  datatype Row = Submission(row: nat) | Aggregate(uid: UserId)

  /** Every row outside `late` carries the organization of its owner. */
  ghost predicate CarriesExcept(db: Db, late: set<Row>) {
    && (forall r :: r in db.submissions ==>
          db.submissions[r].owner in db.users
          && (Submission(r) in late || db.submissions[r].org == StampOrg(db.users[db.submissions[r].owner].org)))
    && (forall u :: u in db.gamification ==>
          u in db.users && (Aggregate(u) in late || db.gamification[u] == StampOrg(db.users[u].org)))
  }

  ghost predicate RowsCarryOrg(db: Db) {
    CarriesExcept(db, {})
  }

  /** Rows are neither lost nor handed to another owner. */
  ghost predicate RowsConserved(before: Db, after: Db) {
    && before.gamification.Keys <= after.gamification.Keys
    && (forall r :: r in before.submissions ==> r in after.submissions && after.submissions[r].owner == before.submissions[r].owner)
  }

  function RowsOf(db: Db, uid: UserId): set<Row> {
    (set r | r in db.submissions && db.submissions[r].owner == uid :: Submission(r))
    + (if uid in db.gamification then {Aggregate(uid)} else {})
  }

  /** The stamp is no longer the organization of its account. */
  predicate Overtaken(db: Db, h: Held)
    requires h.Stamp?
  {
    h.uid in db.users && h.org != StampOrg(db.users[h.uid].org)
  }

  predicate Moves(db: Db, uid: UserId, row: User) {
    uid in db.users && StampOrg(db.users[uid].org) != StampOrg(row.org)
  }

  /** Rows inserted with an overtaken stamp become late, and so do all rows of an account a staff save puts back; re-stamping clears a user's rows. */
  function LateAfter(w: World, late: set<Row>, step: Step): set<Row> {
    match step
    case InsertSubmission(req, row) =>
      if req in w.held && w.held[req].Stamp? && row !in w.db.submissions && Overtaken(w.db, w.held[req]) then late + {Submission(row)} else late
    case InsertAggregate(req) =>
      if req in w.held && w.held[req].Stamp? && w.held[req].uid !in w.db.gamification && Overtaken(w.db, w.held[req])
      then late + {Aggregate(w.held[req].uid)} else late
    case SaveLoaded(req) =>
      if req in w.held && w.held[req].Account? && SaveAccount(w.db, w.held[req].uid, w.held[req].loaded, w.held[req].change).Ok?
         && Moves(w.db, w.held[req].uid, w.held[req].loaded)
      then late + RowsOf(w.db, w.held[req].uid) else late
    case Commit(req, _) =>
      if req in w.inflight && w.inflight[req].ReadyClaim? && CommitClaim(w.db, w.inflight[req].id, w.inflight[req].invite, w.inflight[req].uid).Ok?
      then late - RowsOf(w.db, w.inflight[req].uid) else late
    case AssignStep(uid, org, role) =>
      if AssignOrganization(w.db, uid, org, role).Ok? then late - RowsOf(w.db, uid) else late
    case _ => late
  }

  // ---------------------------------------------------------------- one step

  lemma MoveUserAttributes(db: Db, late: set<Row>, uid: UserId, org: OrgId, role: Role)
    requires CarriesExcept(db, late) && uid in db.users
    ensures CarriesExcept(MoveUser(db, uid, org, role), late - RowsOf(db, uid)) && RowsConserved(db, MoveUser(db, uid, org, role))
  {
    var after := MoveUser(db, uid, org, role);
    forall r | r in after.submissions
      ensures after.submissions[r].owner in after.users
      ensures Submission(r) in late - RowsOf(db, uid) || after.submissions[r].org == StampOrg(after.users[after.submissions[r].owner].org)
    {
      assert r in db.submissions;
    }
    forall u | u in after.gamification
      ensures u in after.users && (Aggregate(u) in late - RowsOf(db, uid) || after.gamification[u] == StampOrg(after.users[u].org))
    {
      assert u in db.gamification;
    }
  }

  /** A step that leaves rows and existing accounts' organizations alone. */
  lemma UntouchedAttributes(before: Db, after: Db, late: set<Row>)
    requires CarriesExcept(before, late)
    requires after.submissions == before.submissions && after.gamification == before.gamification
    requires forall u :: u in before.users ==> u in after.users && StampOrg(after.users[u].org) == StampOrg(before.users[u].org)
    ensures CarriesExcept(after, late) && RowsConserved(before, after)
  {
  }

  lemma ClaimAttributes(w: World, late: set<Row>, req: RequestId, newId: UserId)
    requires CarriesExcept(w.db, late) && req in w.inflight && w.inflight[req].ReadyClaim?
    ensures CarriesExcept(StepCommit(w, req, newId).db, LateAfter(w, late, Commit(req, newId)))
    ensures RowsConserved(w.db, StepCommit(w, req, newId).db)
  {
    hide MayCharge, Restamp;
    var p := w.inflight[req];
    if CommitClaim(w.db, p.id, p.invite, p.uid).Ok? {
      var d := Consume(w.db, p.id).value;
      UntouchedAttributes(w.db, d, late);
      MoveUserAttributes(d, late, p.uid, p.invite.org, p.invite.role);
      assert RowsOf(d, p.uid) == RowsOf(w.db, p.uid);
    }
  }

  lemma OtherCommitAttributes(w: World, late: set<Row>, req: RequestId, newId: UserId)
    requires CarriesExcept(w.db, late) && !(req in w.inflight && w.inflight[req].ReadyClaim?)
    ensures CarriesExcept(StepCommit(w, req, newId).db, late) && RowsConserved(w.db, StepCommit(w, req, newId).db)
  {
    hide MayCharge, EmailTakenIn, CarriesExcept, RowsConserved;
    UntouchedAttributes(w.db, w.db, late);
    if req in w.inflight {
      match w.inflight[req]
      case ReadyNew(id, invite) =>
        if newId !in w.db.users && CommitNew(w.db, id, invite, newId).Ok? {
          UntouchedAttributes(w.db, CommitNew(w.db, id, invite, newId).value, late);
        }
      case ReadyMember(id, _, _) =>
        if Consume(w.db, id).Some? {
          UntouchedAttributes(w.db, Consume(w.db, id).value, late);
        }
      case _ =>
    }
  }

  lemma InsertSubmissionAttributes(w: World, late: set<Row>, req: RequestId, row: nat)
    requires CarriesExcept(w.db, late)
    ensures CarriesExcept(StepInsertSubmission(w, req, row).db, LateAfter(w, late, InsertSubmission(req, row)))
    ensures RowsConserved(w.db, StepInsertSubmission(w, req, row).db)
  {
  }

  lemma InsertAggregateAttributes(w: World, late: set<Row>, req: RequestId)
    requires CarriesExcept(w.db, late)
    ensures CarriesExcept(StepInsertAggregate(w, req).db, LateAfter(w, late, InsertAggregate(req)))
    ensures RowsConserved(w.db, StepInsertAggregate(w, req).db)
  {
  }

  lemma SaveLoadedAttributes(w: World, late: set<Row>, req: RequestId)
    requires CarriesExcept(w.db, late)
    ensures CarriesExcept(StepSaveLoaded(w, req).db, LateAfter(w, late, SaveLoaded(req)))
    ensures RowsConserved(w.db, StepSaveLoaded(w, req).db)
  {
    hide MayCharge, WithinRole;
    if req in w.held && w.held[req].Account? {
      var h := w.held[req];
      var after := StepSaveLoaded(w, req).db;
      var lateAfter := LateAfter(w, late, SaveLoaded(req));
      forall r | r in after.submissions
        ensures Submission(r) in lateAfter || after.submissions[r].org == StampOrg(after.users[after.submissions[r].owner].org)
      {
        assert w.db.submissions[r].owner == h.uid ==> Submission(r) in RowsOf(w.db, h.uid);
      }
    }
  }

  lemma AssignAttributes(w: World, late: set<Row>, uid: UserId, org: OrgId, role: Role)
    requires CarriesExcept(w.db, late)
    ensures CarriesExcept(Apply(w, AssignStep(uid, org, role)).db, LateAfter(w, late, AssignStep(uid, org, role)))
    ensures RowsConserved(w.db, Apply(w, AssignStep(uid, org, role)).db)
  {
    hide MayCharge, MoveUser;
    if AssignOrganization(w.db, uid, org, role).Ok? {
      MoveUserAttributes(w.db, late, uid, org, role);
    }
  }

  /** The remaining steps write neither rows nor organizations of existing accounts. */
  lemma QuietStepAttributes(w: World, late: set<Row>, step: Step)
    requires CarriesExcept(w.db, late)
    requires !step.Commit? && !step.InsertSubmission? && !step.InsertAggregate? && !step.SaveLoaded? && !step.AssignStep?
    ensures CarriesExcept(Apply(w, step).db, late) && RowsConserved(w.db, Apply(w, step).db)
  {
    hide MayCharge, WithinRole, RequireConsumable, JudgeCaller, CarriesExcept, RowsConserved, LoadedInvite, SavedInvite, Clash, NewInvite, FreshToken, EmailTakenIn;
    if step.SaveInvite? && step.req in w.held && w.held[step.req].Managed? {
      var h := w.held[step.req];
      SavedRow(w.db, h.id, h.row, h.act, step.token);
    }
    UntouchedAttributes(w.db, Apply(w, step).db, late);
  }

  lemma StepAttributes(w: World, late: set<Row>, step: Step)
    requires CarriesExcept(w.db, late)
    ensures CarriesExcept(Apply(w, step).db, LateAfter(w, late, step)) && RowsConserved(w.db, Apply(w, step).db)
  {
    hide CarriesExcept, RowsConserved, StepCommit, StepInsertSubmission, StepInsertAggregate, StepSaveLoaded, AssignOrganization;
    match step
    case Commit(req, newId) =>
      if req in w.inflight && w.inflight[req].ReadyClaim? {
        ClaimAttributes(w, late, req, newId);
      } else {
        OtherCommitAttributes(w, late, req, newId);
      }
    case InsertSubmission(req, row) => InsertSubmissionAttributes(w, late, req, row);
    case InsertAggregate(req) => InsertAggregateAttributes(w, late, req);
    case SaveLoaded(req) => SaveLoadedAttributes(w, late, req);
    case AssignStep(uid, org, role) => AssignAttributes(w, late, uid, org, role);
    case _ => QuietStepAttributes(w, late, step);
  }

  // ---------------------------------------------------------------- every run

  /** The rows a run leaves late, starting from `late`. */
  ghost function LateOver(w: World, late: set<Row>, steps: seq<Step>): set<Row>
    decreases |steps|
  {
    if steps == [] then late else LateOver(Apply(w, steps[0]), LateAfter(w, late, steps[0]), steps[1..])
  }

  lemma ConservedTwice(a: Db, b: Db, c: Db)
    requires RowsConserved(a, b) && RowsConserved(b, c)
    ensures RowsConserved(a, c)
  {
  }

  /**
   Over every run, staff steps and overlapping claims included: no row is lost or changes
   owner, and every row that is not late carries its owner's organization.
   */
  lemma {:induction false} RowsAreAttributedOverEveryRun(w: World, late: set<Row>, steps: seq<Step>)
    requires CarriesExcept(w.db, late)
    ensures CarriesExcept(Run(w, steps).db, LateOver(w, late, steps)) && RowsConserved(w.db, Run(w, steps).db)
    decreases |steps|
  {
    hide CarriesExcept, Apply, LateAfter;
    if steps != [] {
      StepAttributes(w, late, steps[0]);
      RowsAreAttributedOverEveryRun(Apply(w, steps[0]), LateAfter(w, late, steps[0]), steps[1..]);
      ConservedTwice(w.db, Apply(w, steps[0]).db, Run(w, steps).db);
    }
  }

  // ---------------------------------------------------------------- exactly when a row goes wrong

  /** An insert keeps every row attributed exactly when it writes nothing or its stamp is still the account's organization. */
  lemma InsertKeepsAttributionExactlyWhen(db: Db, h: Held, row: nat)
    requires h.Stamp? && RowsCarryOrg(db)
    ensures RowsCarryOrg(InsertedSubmission(db, h, row)) <==> row in db.submissions || !Overtaken(db, h)
    ensures RowsCarryOrg(InsertedAggregate(db, h)) <==> h.uid in db.gamification || !Overtaken(db, h)
  {
    if row !in db.submissions && Overtaken(db, h) {
      assert InsertedSubmission(db, h, row).submissions[row].org == h.org;
    }
    if h.uid !in db.gamification && Overtaken(db, h) {
      assert InsertedAggregate(db, h).gamification[h.uid] == h.org;
    }
  }

  /** A staff save of a loaded account keeps every row attributed exactly when it does not put the account back elsewhere, or there are no rows. */
  lemma SaveKeepsAttributionExactlyWhen(db: Db, uid: UserId, loaded: User, change: Change)
    requires RowsCarryOrg(db) && SaveAccount(db, uid, loaded, change).Ok?
    ensures RowsCarryOrg(SaveAccount(db, uid, loaded, change).value) <==> !Moves(db, uid, loaded) || RowsOf(db, uid) == {}
  {
    hide MayCharge, WithinRole;
    var after := SaveAccount(db, uid, loaded, change).value;
    if Moves(db, uid, loaded) && RowsOf(db, uid) != {} {
      var row :| row in RowsOf(db, uid);
      match row
      case Submission(r) => assert r in after.submissions && after.submissions[r].owner == uid;
      case Aggregate(u) => assert u in after.gamification;
    } else {
      forall r | r in after.submissions ensures after.submissions[r].org == StampOrg(after.users[after.submissions[r].owner].org) {
        assert db.submissions[r].owner == uid ==> Submission(r) in RowsOf(db, uid);
      }
      forall u | u in after.gamification ensures after.gamification[u] == StampOrg(after.users[u].org) {
        assert u == uid ==> Aggregate(u) in RowsOf(db, uid);
      }
    }
  }

  /**
   Reached: the worker reads a user without an organization, a claim commits and re-stamps,
   and the insert that follows leaves the aggregate with the legacy organization.
   */
  lemma AClaimBeforeTheInsertLeavesTheOldStamp(w: World, worker: RequestId, claim: RequestId, id: InviteId, invite: Invite, uid: UserId, newId: UserId)
    requires RowsCarryOrg(w.db) && worker !in w.held && uid !in w.db.gamification
    requires claim in w.inflight && w.inflight[claim] == ReadyClaim(id, invite, uid)
    requires StillClaimable(w.db, uid, invite) && w.db.users[uid].org.None? && invite.org != LEGACY_ORG_ID
    requires id in w.db.invites && w.db.invites[id].status == Pending
    requires forall resource :: Limit(w.db, invite.org, resource).None?
    ensures var after := Run(w, [ReadStamp(worker, uid), Commit(claim, newId), InsertAggregate(worker)]).db;
            uid in after.users && after.users[uid].org == Some(invite.org)
            && uid in after.gamification && after.gamification[uid] == LEGACY_ORG_ID && !RowsCarryOrg(after)
  {
    hide StepCommit, CarriesExcept, Restamp;
    var read, commit, insert := ReadStamp(worker, uid), Commit(claim, newId), InsertAggregate(worker);
    var w1 := Apply(w, read);
    UncappedClaimCommits(w1, claim, id, invite, uid, newId);
    var w2 := Apply(w1, commit);
    var w3 := Apply(w2, insert);
    assert [read, commit, insert][1..] == [commit, insert] && [commit, insert][1..] == [insert];
    assert Run(w, [read, commit, insert]) == Run(w1, [commit, insert]) == Run(w2, [insert]) == Run(w3, []);
    assert !RowsCarryOrg(w3.db) by {
      WrongAggregate(w3.db, uid);
    }
  }

  lemma WrongAggregate(db: Db, uid: UserId)
    requires uid in db.gamification && uid in db.users && db.gamification[uid] != StampOrg(db.users[uid].org)
    ensures !RowsCarryOrg(db)
  {
  }

  /** In an organization without caps a claim past its checks goes through. */
  lemma UncappedClaimCommits(w: World, claim: RequestId, id: InviteId, invite: Invite, uid: UserId, newId: UserId)
    requires claim in w.inflight && w.inflight[claim] == ReadyClaim(id, invite, uid) && uid in w.db.users
    requires id in w.db.invites && w.db.invites[id].status == Pending
    requires forall resource :: Limit(w.db, invite.org, resource).None?
    ensures var after := StepCommit(w, claim, newId);
            && after.held == w.held && after.db.gamification.Keys == w.db.gamification.Keys
            && after.db.users == w.db.users[uid := w.db.users[uid].(org := Some(invite.org), role := invite.role)]
  {
    var d := Consume(w.db, id).value;
    assert forall resource :: Limit(d, invite.org, resource) == Limit(w.db, invite.org, resource);
    assert CommitClaim(w.db, id, invite, uid).Ok?;
    ClaimRestamps(w.db, id, invite, uid);
  }
}

/**
 Single consumption, pending-slot uniqueness and claim safety, over every interleaving.
 */
module InviteProtocol {
  import opened Common
  import opened Roles
  import opened Invites

  // ---------------------------------------------------------------- an invite is consumed at most once

  /** The invite a successful reply was given on the strength of. */
  function Redeemed(reply: Reply): Option<InviteId> {
    match reply
    case Refused(_) => None
    case Created(id, _) => Some(id)
    case AlreadyMember(id, _) => Some(id)
    case Joined(id, _) => Some(id)
  }

  predicate Spent(db: Db, id: InviteId) {
    id in db.invites && db.invites[id].status != Pending
  }

  /** Every redeemed invite is spent, and no two requests redeemed the same one. */
  ghost predicate RedeemedOnce(w: World) {
    && w.inflight.Keys !! w.replies.Keys
    && (forall r :: r in w.replies && Redeemed(w.replies[r]).Some? ==> Spent(w.db, Redeemed(w.replies[r]).value))
    && (forall r, q ::
          r in w.replies && q in w.replies && Redeemed(w.replies[r]).Some? && Redeemed(w.replies[r]) == Redeemed(w.replies[q])
          ==> r == q)
  }

  /** A commit that is not refused consumes one pending invite and leaves the others alone. */
  lemma CommitInvites(w: World, req: RequestId, uid: UserId, id: InviteId)
    requires id in w.db.invites
    ensures var after := StepCommit(w, req, uid).db;
            id in after.invites
            && (w.db.invites[id].status != Pending ==> after.invites[id] == w.db.invites[id])
  {
    hide MayCharge, EmailTakenIn;
    CommitEffect(w, req, uid);
  }

  lemma MintKeepsOtherLabels(db: Db, actor: Actor, org: OrgId, request: MintRequest, i: InviteId, token: TokenHash, id: InviteId)
    requires id in db.invites && id != i && db.invites[id].status != Pending
    ensures id in Committed(db, Mint(db, actor, org, request, i, token)).invites
    ensures Committed(db, Mint(db, actor, org, request, i, token)).invites[id] == db.invites[id]
  {
    hide MayCharge, Clash, NewInvite;
  }

  /** The save of a managed invite goes through. */
  predicate Lands(w: World, req: RequestId, id: InviteId) {
    req in w.held && w.held[req].Managed? && w.held[req].id == id
    && !(w.held[req].act.Renewal? && w.held[req].row.status == Pending && SlotTaken(w.db, id, w.held[req].row))
  }

  /** The save of a managed invite writes that one row, or none. */
  lemma SavedRow(db: Db, id: InviteId, row: Invite, act: Managing, token: TokenHash)
    ensures SavedInvite(db, id, row, act, token).Err? <==> act.Renewal? && row.status == Pending && SlotTaken(db, id, row)
    ensures SavedInvite(db, id, row, act, token).Ok? ==>
              var d := SavedInvite(db, id, row, act, token).value;
              && id in d.invites && d == db.(invites := db.invites[id := d.invites[id]])
              && d.invites[id].role == row.role && d.invites[id].org == row.org && d.invites[id].email == row.email
              && d.invites[id].status == if act.Renewal? then row.status else Revoked
  {
    hide SlotTaken;
  }

  lemma SavedInviteStatus(w: World, req: RequestId, token: TokenHash, id: InviteId)
    requires id in w.db.invites
    ensures id in StepSaveInvite(w, req, token).db.invites
    ensures StepSaveInvite(w, req, token).db.invites[id].status
         == if !Lands(w, req, id) then w.db.invites[id].status else if w.held[req].act.Renewal? then w.held[req].row.status else Revoked
  {
    hide SlotTaken, SavedInvite;
    if req in w.held && w.held[req].Managed? {
      var h := w.held[req];
      SavedRow(w.db, h.id, h.row, h.act, token);
    }
  }

  lemma FlipStatus(w: World, req: RequestId, id: InviteId)
    requires id in w.db.invites
    ensures id in StepFlip(w, req).db.invites
    ensures StepFlip(w, req).db.invites[id].status
         == if req in w.inflight && w.inflight[req] == Flipping(id) then Expired else w.db.invites[id].status
  {
    if req in w.inflight && w.inflight[req].Flipping? {
      var i := w.inflight[req].id;
      if i in w.db.invites {
        assert StepFlip(w, req).db.invites == w.db.invites[i := w.db.invites[i].(status := Expired)];
      }
    }
  }

  /** The operations on accounts, quotas and history leave the invites alone. */
  lemma OtherStepsLeaveInvites(w: World, step: Step)
    requires !step.MintStep? && !step.SaveInvite? && !step.Flip? && !step.Commit?
    ensures Apply(w, step).db.invites == w.db.invites
  {
    hide MayCharge, WithinRole, EmailTakenIn, RequireConsumable, JudgeCaller, LoadedInvite;
    match step
    case StaffCreateStep(home, email, role, uid) =>
    case AssignStep(uid, org, role) =>
    case SaveLoaded(_) =>
    case Read(_, _, _) =>
    case Lookup(_) =>
    case _ =>
  }

  /** The step saves a renewal that was loaded while the invite was pending. */
  predicate Revives(w: World, step: Step, id: InviteId) {
    step.SaveInvite? && FreshToken(w.db, step.token) && Lands(w, step.req, id)
    && w.held[step.req].act.Renewal? && w.held[step.req].row.status == Pending
  }

  /** A spent invite becomes pending again in a step exactly when the step is such a save. */
  lemma SpentStaysSpentExactlyWhen(w: World, step: Step, id: InviteId)
    requires Spent(w.db, id)
    ensures Spent(Apply(w, step).db, id) <==> !Revives(w, step, id)
  {
    hide Mint, StepSaveInvite, StepCommit, StepFlip, StepRead, StepLookup, FreshToken, Lands;
    match step
    case Commit(req, uid) => CommitInvites(w, req, uid, id);
    case MintStep(actor, org, request, i, token) =>
      if id != i {
        MintKeepsOtherLabels(w.db, actor, org, request, i, token, id);
      }
    case SaveInvite(req, token) => SavedInviteStatus(w, req, token, id);
    case Flip(req) => FlipStatus(w, req, id);
    case _ => OtherStepsLeaveInvites(w, step);
  }

  /** A successful commit found its invite pending and left it accepted. */
  lemma CommitSpendsAPendingInvite(w: World, req: RequestId, uid: UserId)
    requires req in w.inflight && req !in w.replies
    requires req in StepCommit(w, req, uid).replies && Redeemed(StepCommit(w, req, uid).replies[req]).Some?
    ensures var id := Redeemed(StepCommit(w, req, uid).replies[req]).value;
            id in w.db.invites && w.db.invites[id].status == Pending
            && StepCommit(w, req, uid).db.invites == w.db.invites[id := w.db.invites[id].(status := Accepted)]
  {
    hide MayCharge, EmailTakenIn, Lower;
  }

  lemma SpentByCommit(w: World, after: Db, id: InviteId)
    requires id in w.db.invites && w.db.invites[id].status == Pending
    requires after.invites == w.db.invites[id := w.db.invites[id].(status := Accepted)]
    ensures Spent(after, id) && !Spent(w.db, id)
  {
  }

  /** Besides a commit, no step gives a successful reply or takes one back. */
  lemma OtherRepliesRefuse(w: World, step: Step, r: RequestId)
    requires !step.Commit? && w.inflight.Keys !! w.replies.Keys
    ensures Apply(w, step).inflight.Keys !! Apply(w, step).replies.Keys
    ensures r in w.replies ==> r in Apply(w, step).replies && Apply(w, step).replies[r] == w.replies[r]
    ensures r !in w.replies && r in Apply(w, step).replies ==> Apply(w, step).replies[r].Refused?
  {
    hide Mint, SavedInvite, LoadedInvite, Committed, FreshToken, RequireConsumable, JudgeCaller, StaffCreate, SaveAccount, AssignOrganization, InsertedSubmission, InsertedAggregate;
  }

  lemma CommitReplies(w: World, req: RequestId, uid: UserId, r: RequestId)
    requires w.inflight.Keys !! w.replies.Keys
    ensures var after := StepCommit(w, req, uid);
            && after.inflight.Keys !! after.replies.Keys
            && (r in w.replies ==> r in after.replies && after.replies[r] == w.replies[r])
            && (r !in w.replies && r in after.replies ==> r == req && req in w.inflight)
  {
    hide Transaction;
  }

  /** The step revives no spent invite. */
  ghost predicate RevivesNothing(w: World, step: Step) {
    forall id :: Spent(w.db, id) ==> !Revives(w, step, id)
  }

  /** What one step does to replies and to the invite a successful one was given for. */
  lemma NewRepliesSpend(w: World, step: Step)
    requires w.inflight.Keys !! w.replies.Keys
    ensures var after := Apply(w, step);
            && after.inflight.Keys !! after.replies.Keys
            && (forall r :: r in w.replies ==> r in after.replies && after.replies[r] == w.replies[r])
            && (forall r :: r !in w.replies && r in after.replies && Redeemed(after.replies[r]).Some? ==>
                  step.Commit? && step.req == r
                  && !Spent(w.db, Redeemed(after.replies[r]).value) && Spent(after.db, Redeemed(after.replies[r]).value))
  {
    hide Spent, StepCommit, StepRead, StepLookup, StepFlip, Committed, FreshToken, StepSaveLoaded, StepSaveInvite, StepLoadInvite,
      InsertedSubmission, InsertedAggregate;
    var after := Apply(w, step);
    forall r
      ensures after.inflight.Keys !! after.replies.Keys
      ensures r in w.replies ==> r in after.replies && after.replies[r] == w.replies[r]
      ensures r !in w.replies && r in after.replies && Redeemed(after.replies[r]).Some? ==> step.Commit? && step.req == r && r in w.inflight
    {
      if step.Commit? {
        CommitReplies(w, step.req, step.uid, r);
      } else {
        OtherRepliesRefuse(w, step, r);
      }
    }
    if step.Commit? && step.req in w.inflight && step.req in after.replies && Redeemed(after.replies[step.req]).Some? {
      CommitSpendsAPendingInvite(w, step.req, step.uid);
      SpentByCommit(w, after.db, Redeemed(after.replies[step.req]).value);
    }
  }

  lemma StepRedeemsOnce(w: World, step: Step)
    requires RedeemedOnce(w) && RevivesNothing(w, step)
    ensures RedeemedOnce(Apply(w, step))
  {
    hide Spent, Apply, Revives;
    var after := Apply(w, step);
    NewRepliesSpend(w, step);
    forall r | r in w.replies && Redeemed(w.replies[r]).Some?
      ensures Spent(after.db, Redeemed(w.replies[r]).value)
    {
      SpentStaysSpentExactlyWhen(w, step, Redeemed(w.replies[r]).value);
    }
  }

  ghost predicate NothingRevived(w: World, steps: seq<Step>)
    decreases |steps|
  {
    steps == [] || (RevivesNothing(w, steps[0]) && NothingRevived(Apply(w, steps[0]), steps[1..]))
  }

  /** Unless a renewal loaded before saves after, any interleaving of accepts and claims redeems each invite at most once. */
  lemma {:induction false} EachInviteIsRedeemedAtMostOnce(w: World, steps: seq<Step>)
    requires RedeemedOnce(w) && NothingRevived(w, steps)
    ensures RedeemedOnce(Run(w, steps))
    ensures forall id :: Spent(w.db, id) ==> Spent(Run(w, steps).db, id)
    decreases |steps|
  {
    hide Apply, Revives, RedeemedOnce;
    if steps != [] {
      StepRedeemsOnce(w, steps[0]);
      forall id | Spent(w.db, id)
        ensures Spent(Apply(w, steps[0]).db, id)
      {
        SpentStaysSpentExactlyWhen(w, steps[0], id);
      }
      EachInviteIsRedeemedAtMostOnce(Apply(w, steps[0]), steps[1..]);
    }
  }

  // ---------------------------------------------------------------- redemptions counted over every run

  /** The requests this invite was redeemed by. */
  function Redeemers(w: World, id: InviteId): set<RequestId> {
    set r | r in w.replies && Redeemed(w.replies[r]) == Some(id)
  }

  function Once(b: bool): nat {
    if b then 1 else 0
  }

  /** How often the run makes the spent invite pending again. */
  ghost function Revivals(w: World, steps: seq<Step>, id: InviteId): nat
    decreases |steps|
  {
    if steps == [] then 0
    else Once(Spent(w.db, id) && Revives(w, steps[0], id)) + Revivals(Apply(w, steps[0]), steps[1..], id)
  }

  lemma StepCountsRedemptions(w: World, step: Step, id: InviteId)
    requires w.inflight.Keys !! w.replies.Keys
    ensures var after := Apply(w, step);
            && after.inflight.Keys !! after.replies.Keys
            && |Redeemers(after, id)| + Once(Spent(w.db, id))
                 <= |Redeemers(w, id)| + Once(Spent(after.db, id)) + Once(Spent(w.db, id) && Revives(w, step, id))
  {
    hide Spent, Apply, Revives;
    var after := Apply(w, step);
    NewRepliesSpend(w, step);
    if Spent(w.db, id) {
      SpentStaysSpentExactlyWhen(w, step, id);
      assert Redeemers(after, id) == Redeemers(w, id);
    } else if step.Commit? && step.req in Redeemers(after, id) - Redeemers(w, id) {
      assert Redeemers(after, id) == Redeemers(w, id) + {step.req};
    } else {
      assert Redeemers(after, id) == Redeemers(w, id);
    }
  }

  /** Over every run at all, an invite is redeemed at most once more than it is revived. */
  lemma {:induction false} RedemptionsOverEveryRun(w: World, steps: seq<Step>, id: InviteId)
    requires w.inflight.Keys !! w.replies.Keys
    ensures |Redeemers(Run(w, steps), id)| + Once(Spent(w.db, id))
         <= |Redeemers(w, id)| + Once(Spent(Run(w, steps).db, id)) + Revivals(w, steps, id)
    decreases |steps|
  {
    hide Spent, Apply, Revives, Redeemers;
    if steps != [] {
      StepCountsRedemptions(w, steps[0], id);
      RedemptionsOverEveryRun(Apply(w, steps[0]), steps[1..], id);
    }
  }

  /** The steps of the invite protocol, as opposed to the staff operations on accounts. */
  predicate ProtocolStep(step: Step) {
    !step.StaffCreateStep? && !step.SaveLoaded? && !step.AssignStep?
  }

  /** A commit either leaves the rows alone or spends the invite it holds and touches at most one account. */
  lemma CommitEffect(w: World, req: RequestId, uid: UserId)
    ensures var after := StepCommit(w, req, uid);
            after.db == w.db
            || (&& req in w.inflight && (w.inflight[req].ReadyNew? || w.inflight[req].ReadyMember? || w.inflight[req].ReadyClaim?)
                && after.replies.Keys == w.replies.Keys + {req} && Redeemed(after.replies[req]) == Some(w.inflight[req].id)
                && w.inflight[req].id in w.db.invites && w.db.invites[w.inflight[req].id].status == Pending
                && after.db.invites == w.db.invites[w.inflight[req].id := w.db.invites[w.inflight[req].id].(status := Accepted)]
                && CommitAccount(w, after, req))
  {
    if req in w.inflight {
      match w.inflight[req]
      case ReadyNew(id, invite) =>
        if uid !in w.db.users && CommitNew(w.db, id, invite, uid).Ok? {
          assert Redeemed(StepCommit(w, req, uid).replies[req]) == Some(id);
        }
      case ReadyMember(id, _, u) =>
        if Consume(w.db, id).Some? {
          assert Redeemed(StepCommit(w, req, uid).replies[req]) == Some(id);
        }
      case ReadyClaim(id, invite, u) =>
        if CommitClaim(w.db, id, invite, u).Ok? {
          assert Redeemed(StepCommit(w, req, uid).replies[req]) == Some(id);
        }
      case Flipping(_) =>
      case HasInvite(_, _, _) =>
    }
  }

  /** How a successful commit treats the accounts: one insert, none, or one re-homed. */
  predicate CommitAccount(before: World, after: World, req: RequestId)
    requires req in before.inflight && req in after.replies && !before.inflight[req].Flipping?
  {
    var invite := before.inflight[req].invite;
    match after.replies[req]
    case Refused(_) => false
    case AlreadyMember(_, _) => before.inflight[req].ReadyMember? && after.db.users == before.db.users
    case Created(_, uid) =>
      before.inflight[req].ReadyNew? && uid !in before.db.users
      && after.db.users == before.db.users[uid := User(Lower(invite.email), invite.role, Some(invite.org), true)]
    case Joined(_, uid) =>
      before.inflight[req].ReadyClaim? && uid == before.inflight[req].uid && uid in before.db.users
      && after.db.users == before.db.users[uid := before.db.users[uid].(org := Some(invite.org), role := invite.role)]
  }

  /** Outside the staff operations, nothing but a commit writes an account. */
  lemma OnlyCommitsTouchAccounts(w: World, step: Step)
    requires ProtocolStep(step) && !step.Commit?
    ensures Apply(w, step).db.users == w.db.users
  {
    hide MayCharge, WithinRole, Clash, NewInvite, FreshToken, RequireConsumable, JudgeCaller, LoadedInvite, SavedInvite;
    match step
    case MintStep(actor, org, request, id, token) =>
    case LoadInvite(_, _, _, _, _) =>
    case SaveInvite(req, token) =>
      if req in w.held && w.held[req].Managed? {
        SavedRow(w.db, w.held[req].id, w.held[req].row, w.held[req].act, token);
      }
    case Read(_, _, _) =>
    case Lookup(_) =>
    case Flip(_) =>
    case _ =>
  }

  /**
   The lazy expiry write and the save of a managed invite carry no condition on the stored
   status. An accepted invite keeps its label in a step exactly when the step is neither such a
   write, nor a revoke, nor a resend that loaded it with another label.
   */
  lemma AcceptedLabelKeptExactlyWhen(w: World, step: Step, id: InviteId)
    requires id in w.db.invites && w.db.invites[id].status == Accepted
    ensures id in Apply(w, step).db.invites
    ensures Apply(w, step).db.invites[id].status == Accepted
       <==> !(step.Flip? && step.req in w.inflight && w.inflight[step.req] == Flipping(id))
            && !(step.SaveInvite? && FreshToken(w.db, step.token) && Lands(w, step.req, id)
                 && (w.held[step.req].act.Withdrawal? || w.held[step.req].row.status != Accepted))
  {
    hide Mint, StepSaveInvite, StepCommit, StepFlip, StepRead, StepLookup, FreshToken, SlotTaken;
    match step
    case Commit(req, uid) => CommitInvites(w, req, uid, id);
    case MintStep(actor, org, request, i, token) =>
      if id != i {
        MintKeepsOtherLabels(w.db, actor, org, request, i, token, id);
      }
    case SaveInvite(req, token) => SavedInviteStatus(w, req, token, id);
    case Flip(req) => FlipStatus(w, req, id);
    case _ => OtherStepsLeaveInvites(w, step);
  }

  /** Such a relabelling is reached: a request saw the row timed out, another redeemed it, and the first one's write follows. */
  lemma ARedeemedInviteIsRelabelled(w: World, flip: RequestId, commit: RequestId, id: InviteId, invite: Invite, uid: UserId, newId: UserId)
    requires flip in w.inflight && w.inflight[flip] == Flipping(id)
    requires commit in w.inflight && w.inflight[commit] == ReadyMember(id, invite, uid)
    requires id in w.db.invites && w.db.invites[id].status == Pending
    ensures var after := Run(w, [Commit(commit, newId), Flip(flip)]);
            commit in after.replies && after.replies[commit] == AlreadyMember(id, uid) && id in after.db.invites && after.db.invites[id].status == Expired
  {
    var first := Apply(w, Commit(commit, newId));
    assert [Commit(commit, newId), Flip(flip)][1..] == [Flip(flip)];
    assert Run(first, [Flip(flip)]) == Run(Apply(first, Flip(flip)), []);
  }

  // ---------------------------------------------------------------- one pending row per address

  /** What `uq_org_invites_org_pending_email` promises. */
  ghost predicate PendingUnique(db: Db) {
    forall i, j :: i in db.invites && j in db.invites
                   && db.invites[i].status == Pending && db.invites[j].status == Pending
                   && db.invites[i].org == db.invites[j].org && Lower(db.invites[i].email) == Lower(db.invites[j].email)
                   ==> i == j
  }

  /** Rows that are pending afterwards were pending before, at the same address. */
  lemma NoNewPendingKeepsUnique(before: Db, after: Db)
    requires PendingUnique(before)
    requires forall i :: i in after.invites && after.invites[i].status == Pending ==>
               i in before.invites && before.invites[i].status == Pending
               && before.invites[i].org == after.invites[i].org && before.invites[i].email == after.invites[i].email
    ensures PendingUnique(after)
  {
  }

  lemma MintKeepsPendingUnique(db: Db, actor: Actor, org: OrgId, request: MintRequest, id: InviteId, token: TokenHash)
    requires PendingUnique(db)
    ensures PendingUnique(Committed(db, Mint(db, actor, org, request, id, token)))
  {
    var email := Lower(request.email);
    var swept := ExpireStalePending(db, org, email);
    NoNewPendingKeepsUnique(db, swept);
    LowerIdempotent(request.email);
    if Mint(db, actor, org, request, id, token).Ok? {
      assert forall j :: j in swept.invites ==> !PendingFor(swept.invites[j], org, email);
    }
  }

  lemma CommitKeepsPendingUnique(w: World, req: RequestId, uid: UserId)
    requires PendingUnique(w.db)
    ensures PendingUnique(StepCommit(w, req, uid).db)
  {
    CommitEffect(w, req, uid);
    NoNewPendingKeepsUnique(w.db, StepCommit(w, req, uid).db);
  }

  /** Rewriting one row without changing its address or making it pending. */
  lemma RowRewriteKeepsUnique(db: Db, id: InviteId, row: Invite)
    requires PendingUnique(db) && id in db.invites
    requires row.org == db.invites[id].org && row.email == db.invites[id].email
    requires row.status == Pending ==> db.invites[id].status == Pending
    ensures PendingUnique(db.(invites := db.invites[id := row]))
  {
    NoNewPendingKeepsUnique(db, db.(invites := db.invites[id := row]));
  }

  lemma SaveInviteKeepsPendingUnique(w: World, req: RequestId, token: TokenHash)
    requires PendingUnique(w.db)
    ensures PendingUnique(StepSaveInvite(w, req, token).db)
  {
    if req in w.held && w.held[req].Managed? {
      var h := w.held[req];
      var row := if h.act.Renewal? then Renewed(w.db, h.row, token) else h.row.(status := Revoked);
      forall j | j in w.db.invites && j != h.id && w.db.invites[j].status == Pending && row.status == Pending && Lands(w, req, h.id)
        ensures w.db.invites[j].org != row.org || Lower(w.db.invites[j].email) != Lower(row.email)
      {
        assert !PendingFor(w.db.invites[j], h.row.org, Lower(h.row.email));
      }
    }
  }

  lemma FlipKeepsPendingUnique(w: World, req: RequestId)
    requires PendingUnique(w.db)
    ensures PendingUnique(StepFlip(w, req).db)
  {
    NoNewPendingKeepsUnique(w.db, StepFlip(w, req).db);
  }

  lemma StepKeepsPendingUnique(w: World, step: Step)
    requires PendingUnique(w.db)
    ensures PendingUnique(Apply(w, step).db)
  {
    match step
    case MintStep(actor, org, request, id, token) => MintKeepsPendingUnique(w.db, actor, org, request, id, token);
    case SaveInvite(req, token) => SaveInviteKeepsPendingUnique(w, req, token);
    case Flip(req) => FlipKeepsPendingUnique(w, req);
    case Commit(req, uid) => CommitKeepsPendingUnique(w, req, uid);
    case _ => OtherStepsLeaveInvites(w, step);
  }

  lemma {:induction false} OnePendingRowPerAddress(w: World, steps: seq<Step>)
    requires PendingUnique(w.db)
    ensures PendingUnique(Run(w, steps).db)
    decreases |steps|
  {
    if steps != [] {
      StepKeepsPendingUnique(w, steps[0]);
      OnePendingRowPerAddress(Apply(w, steps[0]), steps[1..]);
    }
  }

  /** Sweeping an address frees no seat and takes none: a timed-out row held none. */
  lemma SweepKeepsSeats(db: Db, org: OrgId, email: string, o: OrgId, resource: Resource)
    ensures Seats(ExpireStalePending(db, org, email), o, resource) == Seats(db, o, resource)
  {
    var p := InviteSeat(o, resource, db.now);
    CountShrinks(db.invites, ExpireStalePending(db, org, email).invites, p, p);
    CountShrinks(ExpireStalePending(db, org, email).invites, db.invites, p, p);
  }

  /** A live invite is already waiting for this address. */
  predicate LiveInviteWaiting(db: Db, org: OrgId, email: string) {
    exists id :: id in db.invites && PendingFor(db.invites[id], org, email) && db.invites[id].expiresAt > db.now
  }

  /**
   Past the guards, minting is refused as already pending exactly when an unexpired pending
   row exists; otherwise only a full cap refuses it, so a timed-out row never blocks a re-invite.
   */
  lemma RefusedAsPendingExactlyWhenLive(db: Db, actor: Actor, org: OrgId, request: MintRequest, id: InviteId, token: TokenHash)
    requires MayInvite(actor.role, request.role) && org in db.orgs && db.orgs[org] == Operating
    ensures Mint(db, actor, org, request, id, token) == Err(InviteAlreadyPending)
       <==> LiveInviteWaiting(db, org, Lower(request.email))
    ensures Mint(db, actor, org, request, id, token).Ok?
       <==> !LiveInviteWaiting(db, org, Lower(request.email)) && MayCharge(db, org, request.role)
  {
    var email := Lower(request.email);
    var swept := ExpireStalePending(db, org, email);
    if LiveInviteWaiting(db, org, email) {
      var i :| i in db.invites && PendingFor(db.invites[i], org, email) && db.invites[i].expiresAt > db.now;
      assert i in swept.invites && PendingFor(swept.invites[i], org, email);
    }
    forall o, resource
      ensures Within(swept, o, resource) <==> Within(db, o, resource)
    {
      SweepKeepsSeats(db, org, email, o, resource);
    }
  }

  // ---------------------------------------------------------------- claim safety

  /** No account loses rank, no superadmin is touched, no member of a real organization is moved. */
  ghost predicate Advances(before: Db, after: Db) {
    forall u :: u in before.users ==>
      && u in after.users
      && Rank(before.users[u].role) <= Rank(after.users[u].role)
      && (before.users[u].role == Superadmin ==> after.users[u] == before.users[u])
      && (!IsClaimableMember(before.users[u].org) ==> after.users[u].org == before.users[u].org)
  }

  ghost predicate NoSuperadminInvites(w: World) {
    && (forall id :: id in w.db.invites ==> w.db.invites[id].role != Superadmin)
    && (forall r :: r in w.inflight && !w.inflight[r].Flipping? ==> w.inflight[r].invite.role != Superadmin)
    && (forall r :: r in w.held && w.held[r].Managed? ==> w.held[r].row.role != Superadmin)
  }

  /** A claim in flight still describes the account it looked up. */
  predicate StillClaimable(db: Db, uid: UserId, invite: Invite) {
    uid in db.users && Ineligible(db.users[uid], invite).None? && IsClaimableMember(db.users[uid].org)
  }

  ghost predicate ClaimsSerial(w: World) {
    && (forall r :: r in w.inflight && w.inflight[r].ReadyClaim? ==> StillClaimable(w.db, w.inflight[r].uid, w.inflight[r].invite))
    && (forall r, q ::
          r in w.inflight && q in w.inflight && w.inflight[r].ReadyClaim? && w.inflight[q].ReadyClaim?
          && w.inflight[r].uid == w.inflight[q].uid
          ==> r == q)
  }

  ghost predicate ClaimInvariant(w: World) {
    ClaimsSerial(w) && NoSuperadminInvites(w)
    && forall u :: u in w.db.users && w.db.users[u].role == Superadmin ==> w.db.users[u].org.None?
  }

  /** One user's claims in sequence: none starts its lookup while another is past it. */
  predicate SerialStep(w: World, step: Step) {
    && ProtocolStep(step)
    && (step.Lookup? && step.req in w.inflight && w.inflight[step.req].HasInvite? && w.inflight[step.req].caller.SignedIn? ==>
          forall q :: q in w.inflight && w.inflight[q].ReadyClaim? ==> w.inflight[q].uid != w.inflight[step.req].caller.uid)
  }

  ghost predicate SerialRun(w: World, steps: seq<Step>)
    decreases |steps|
  {
    steps == [] || (SerialStep(w, steps[0]) && SerialRun(Apply(w, steps[0]), steps[1..]))
  }

  /** A successful claim re-stamps exactly the rows of its user and keeps every row and owner. */
  lemma ClaimRestamps(db: Db, id: InviteId, invite: Invite, uid: UserId)
    requires CommitClaim(db, id, invite, uid).Ok?
    ensures var after := CommitClaim(db, id, invite, uid).value;
      && after.users == db.users[uid := db.users[uid].(org := Some(invite.org), role := invite.role)]
      && after.submissions.Keys == db.submissions.Keys && after.gamification.Keys == db.gamification.Keys
      && (forall r :: r in db.submissions ==> after.submissions[r].owner == db.submissions[r].owner)
      && (forall r :: r in db.submissions && db.submissions[r].owner == uid ==> after.submissions[r].org == invite.org)
      && (forall r :: r in db.submissions && db.submissions[r].owner != uid ==> after.submissions[r] == db.submissions[r])
      && (forall u :: u in db.gamification ==> after.gamification[u] == if u == uid then invite.org else db.gamification[u])
  {
  }

  /** A claim that still describes its account cannot do harm. */
  lemma CommitClaimAdvances(db: Db, id: InviteId, invite: Invite, uid: UserId)
    requires StillClaimable(db, uid, invite)
    requires CommitClaim(db, id, invite, uid).Ok?
    ensures Advances(db, CommitClaim(db, id, invite, uid).value)
  {
    ClaimRestamps(db, id, invite, uid);
  }

  /** The invariant survives any commit that adds no superadmin and moves no other claimer. */
  lemma QuietCommitKeepsClaimInvariant(w: World, after: World, req: RequestId)
    requires ClaimInvariant(w) && req in w.inflight
    requires after.inflight == w.inflight - {req} && after.held == w.held
    requires Advances(w.db, after.db)
    requires forall id :: id in after.db.invites ==> id in w.db.invites && after.db.invites[id].role == w.db.invites[id].role
    requires forall u :: u in w.db.users && !(w.inflight[req].ReadyClaim? && w.inflight[req].uid == u) ==> after.db.users[u] == w.db.users[u]
    requires forall u :: u in after.db.users && !(u in w.db.users && after.db.users[u] == w.db.users[u]) ==> after.db.users[u].role != Superadmin
    ensures ClaimInvariant(after)
  {
  }

  lemma NewAccountKeepsClaimInvariant(w: World, req: RequestId, uid: UserId)
    requires ClaimInvariant(w) && req in w.inflight && w.inflight[req].ReadyNew? && uid !in w.db.users
    requires CommitNew(w.db, w.inflight[req].id, w.inflight[req].invite, uid).Ok?
    ensures ClaimInvariant(StepCommit(w, req, uid))
    ensures Advances(w.db, StepCommit(w, req, uid).db)
  {
    QuietCommitKeepsClaimInvariant(w, StepCommit(w, req, uid), req);
  }

  lemma MemberKeepsClaimInvariant(w: World, req: RequestId, uid: UserId)
    requires ClaimInvariant(w) && req in w.inflight && w.inflight[req].ReadyMember?
    requires CommitMember(w.db, w.inflight[req].id).Ok?
    ensures ClaimInvariant(StepCommit(w, req, uid))
    ensures Advances(w.db, StepCommit(w, req, uid).db)
  {
    QuietCommitKeepsClaimInvariant(w, StepCommit(w, req, uid), req);
  }

  lemma ClaimKeepsClaimInvariant(w: World, req: RequestId, uid: UserId)
    requires ClaimInvariant(w) && req in w.inflight && w.inflight[req].ReadyClaim?
    requires CommitClaim(w.db, w.inflight[req].id, w.inflight[req].invite, w.inflight[req].uid).Ok?
    ensures ClaimInvariant(StepCommit(w, req, uid))
    ensures Advances(w.db, StepCommit(w, req, uid).db)
  {
    var p := w.inflight[req];
    ClaimRestamps(w.db, p.id, p.invite, p.uid);
    CommitClaimAdvances(w.db, p.id, p.invite, p.uid);
    QuietCommitKeepsClaimInvariant(w, StepCommit(w, req, uid), req);
  }

  /** A commit that does not redeem changes no row. */
  lemma RefusedCommitKeepsClaimInvariant(w: World, req: RequestId, uid: UserId)
    requires ClaimInvariant(w) && StepCommit(w, req, uid).db == w.db
    ensures ClaimInvariant(StepCommit(w, req, uid))
    ensures Advances(w.db, StepCommit(w, req, uid).db)
  {
    assert StepCommit(w, req, uid).inflight.Keys <= w.inflight.Keys;
  }

  lemma CommitKeepsClaimInvariant(w: World, req: RequestId, uid: UserId)
    requires ClaimInvariant(w)
    ensures ClaimInvariant(StepCommit(w, req, uid))
    ensures Advances(w.db, StepCommit(w, req, uid).db)
  {
    CommitEffect(w, req, uid);
    if StepCommit(w, req, uid).db == w.db {
      RefusedCommitKeepsClaimInvariant(w, req, uid);
    } else {
      match w.inflight[req]
      case ReadyNew(id, invite) => NewAccountKeepsClaimInvariant(w, req, uid);
      case ReadyMember(id, _, u) => MemberKeepsClaimInvariant(w, req, uid);
      case ReadyClaim(id, invite, u) => ClaimKeepsClaimInvariant(w, req, uid);
    }
  }

  lemma LookupKeepsClaimInvariant(w: World, req: RequestId)
    requires ClaimInvariant(w) && SerialStep(w, Lookup(req))
    ensures ClaimInvariant(StepLookup(w, req)) && StepLookup(w, req).db == w.db
  {
  }

  lemma ReadKeepsClaimInvariant(w: World, req: RequestId, caller: Caller, token: TokenHash)
    requires ClaimInvariant(w)
    ensures ClaimInvariant(StepRead(w, req, caller, token)) && StepRead(w, req, caller, token).db == w.db
  {
    if FindByToken(w.db, token).Some? {
      assert FindByToken(w.db, token).value in w.db.invites;
    }
  }

  /** Steps that write no account and no request, and mint no superadmin invite. */
  lemma QuietStepKeepsClaimInvariant(w: World, after: Db)
    requires ClaimInvariant(w)
    requires after.users == w.db.users
    requires forall id :: id in after.invites ==> after.invites[id].role != Superadmin
    ensures ClaimInvariant(w.(db := after)) && Advances(w.db, after)
  {
  }

  lemma SaveInviteKeepsClaimInvariant(w: World, req: RequestId, token: TokenHash)
    requires ClaimInvariant(w)
    ensures ClaimInvariant(StepSaveInvite(w, req, token)) && Advances(w.db, StepSaveInvite(w, req, token).db)
  {
    hide SavedInvite, ClaimsSerial, Advances;
    QuietStepKeepsClaimInvariant(w, w.db);
    if req in w.held && w.held[req].Managed? {
      var h := w.held[req];
      SavedRow(w.db, h.id, h.row, h.act, token);
      var d := Committed(w.db, SavedInvite(w.db, h.id, h.row, h.act, token));
      QuietStepKeepsClaimInvariant(w, d);
      FewerHeldKeepClaimInvariant(w.(db := d), w.held - {req});
    }
  }

  lemma FewerHeldKeepClaimInvariant(w: World, held: map<RequestId, Held>)
    requires ClaimInvariant(w) && forall r :: r in held ==> r in w.held && held[r] == w.held[r]
    ensures ClaimInvariant(w.(held := held))
  {
  }

  lemma MintAddsOneInvite(db: Db, actor: Actor, org: OrgId, request: MintRequest, i: InviteId, token: TokenHash)
    requires Mint(db, actor, org, request, i, token).Ok?
    ensures var d := Mint(db, actor, org, request, i, token).value;
            d == db.(invites := d.invites)
            && forall id :: id in d.invites ==>
                 if id == i then d.invites[id].role == request.role && request.role != Superadmin
                 else id in db.invites && d.invites[id].role == db.invites[id].role
  {
    hide MayCharge, Clash;
  }

  lemma InviteWritesKeepClaimInvariant(w: World, step: Step)
    requires ClaimInvariant(w) && (step.MintStep? || step.SaveInvite?)
    ensures ClaimInvariant(Apply(w, step)) && Advances(w.db, Apply(w, step).db)
  {
    hide Mint, StepSaveInvite, FreshToken, Advances, ClaimsSerial;
    QuietStepKeepsClaimInvariant(w, w.db);
    match step
    case MintStep(actor, org, request, id, token) =>
      if Mint(w.db, actor, org, request, id, token).Ok? {
        MintAddsOneInvite(w.db, actor, org, request, id, token);
        QuietStepKeepsClaimInvariant(w, Mint(w.db, actor, org, request, id, token).value);
      }
    case SaveInvite(req, token) => SaveInviteKeepsClaimInvariant(w, req, token);
  }

  lemma FlipKeepsClaimInvariant(w: World, req: RequestId)
    requires ClaimInvariant(w)
    ensures ClaimInvariant(StepFlip(w, req)) && Advances(w.db, StepFlip(w, req).db)
  {
    hide Advances;
    var after := StepFlip(w, req);
    QuietStepKeepsClaimInvariant(w, after.db);
    assert after.inflight.Keys <= w.inflight.Keys;
  }

  /** Steps that change neither the accounts, the invites nor the requests in flight. */
  lemma BystandersKeepClaimInvariant(w: World, after: World)
    requires ClaimInvariant(w) && after.inflight == w.inflight
    requires after.db.users == w.db.users && after.db.invites == w.db.invites
    requires forall r :: r in after.held && after.held[r].Managed? ==> after.held[r].row.role != Superadmin
    ensures ClaimInvariant(after) && Advances(w.db, after.db)
  {
  }

  lemma OtherStepsKeepClaimInvariant(w: World, step: Step)
    requires ClaimInvariant(w)
    requires step.Flip? || step.Tick? || step.SetLimit? || step.ReadStamp? || step.InsertSubmission? || step.InsertAggregate? || step.LoadAccount? || step.LoadInvite?
    ensures ClaimInvariant(Apply(w, step)) && Advances(w.db, Apply(w, step).db)
  {
    hide StepFlip, Advances, ClaimsSerial, StepLoadInvite;
    match step
    case Flip(req) => FlipKeepsClaimInvariant(w, req);
    case LoadInvite(req, actor, id, pin, act) => LoadInviteKeepsClaimInvariant(w, req, actor, id, pin, act);
    case _ => BystandersKeepClaimInvariant(w, Apply(w, step));
  }

  lemma LoadInviteKeepsClaimInvariant(w: World, req: RequestId, actor: Actor, id: InviteId, pin: Option<OrgId>, act: Managing)
    requires ClaimInvariant(w)
    ensures var after := StepLoadInvite(w, req, actor, id, pin, act); ClaimInvariant(after) && Advances(w.db, after.db)
  {
    hide ClaimsSerial, CoolingDown;
    BystandersKeepClaimInvariant(w, StepLoadInvite(w, req, actor, id, pin, act));
  }

  lemma StepKeepsClaimInvariant(w: World, step: Step)
    requires ClaimInvariant(w) && SerialStep(w, step)
    ensures ClaimInvariant(Apply(w, step))
    ensures Advances(w.db, Apply(w, step).db)
  {
    match step
    case Commit(req, uid) => CommitKeepsClaimInvariant(w, req, uid);
    case Lookup(req) => LookupKeepsClaimInvariant(w, req);
    case Read(req, caller, token) => ReadKeepsClaimInvariant(w, req, caller, token);
    case MintStep(_, _, _, _, _) => InviteWritesKeepClaimInvariant(w, step);
    case SaveInvite(_, _) => InviteWritesKeepClaimInvariant(w, step);
    case _ => OtherStepsKeepClaimInvariant(w, step);
  }

  lemma AdvancesTransitive(a: Db, b: Db, c: Db)
    requires Advances(a, b) && Advances(b, c)
    ensures Advances(a, c)
  {
  }

  /** Over every run in which each user claims one invite at a time. */
  lemma {:induction false} ClaimsAreSafeOverEveryRun(w: World, steps: seq<Step>)
    requires ClaimInvariant(w) && SerialRun(w, steps)
    ensures ClaimInvariant(Run(w, steps))
    ensures Advances(w.db, Run(w, steps).db)
    decreases |steps|
  {
    if steps != [] {
      StepKeepsClaimInvariant(w, steps[0]);
      ClaimsAreSafeOverEveryRun(Apply(w, steps[0]), steps[1..]);
      AdvancesTransitive(w.db, Apply(w, steps[0]).db, Run(w, steps).db);
    }
  }

  /** The step re-homes this user by another claim. */
  predicate Rehomes(w: World, step: Step, uid: UserId) {
    step.Commit? && step.req in w.inflight && w.inflight[step.req].ReadyClaim? && w.inflight[step.req].uid == uid
  }

  ghost predicate NobodyRehomes(w: World, steps: seq<Step>, uid: UserId)
    decreases |steps|
  {
    steps == [] || (ProtocolStep(steps[0]) && !Rehomes(w, steps[0], uid) && NobodyRehomes(Apply(w, steps[0]), steps[1..], uid))
  }

  lemma RowStands(w: World, step: Step, uid: UserId)
    requires uid in w.db.users && ProtocolStep(step) && !Rehomes(w, step, uid)
    ensures uid in Apply(w, step).db.users && Apply(w, step).db.users[uid] == w.db.users[uid]
  {
    hide StepCommit, CommitAccount;
    if step.Commit? {
      CommitLeavesOthers(w, step.req, step.uid, uid);
    } else {
      OnlyCommitsTouchAccounts(w, step);
    }
  }

  lemma CommitLeavesOthers(w: World, req: RequestId, newId: UserId, uid: UserId)
    requires uid in w.db.users && !(req in w.inflight && w.inflight[req].ReadyClaim? && w.inflight[req].uid == uid)
    ensures uid in StepCommit(w, req, newId).db.users && StepCommit(w, req, newId).db.users[uid] == w.db.users[uid]
  {
    CommitEffect(w, req, newId);
  }

  lemma {:induction false} AccountStandsWhileNobodyRehomes(w: World, steps: seq<Step>, uid: UserId)
    requires uid in w.db.users && NobodyRehomes(w, steps, uid)
    ensures uid in Run(w, steps).db.users && Run(w, steps).db.users[uid] == w.db.users[uid]
    decreases |steps|
  {
    hide Apply;
    if steps != [] {
      RowStands(w, steps[0], uid);
      AccountStandsWhileNobodyRehomes(Apply(w, steps[0]), steps[1..], uid);
    }
  }

  /**
   A claim in flight stays safe to commit over any run of protocol steps in which no other
   claim of the same user commits: of all the interference there can be, only that one matters.
   */
  lemma ClaimSafeUnlessAnotherClaimCommits(w: World, steps: seq<Step>, id: InviteId, invite: Invite, uid: UserId)
    requires StillClaimable(w.db, uid, invite) && NobodyRehomes(w, steps, uid)
    requires CommitClaim(Run(w, steps).db, id, invite, uid).Ok?
    ensures Advances(Run(w, steps).db, CommitClaim(Run(w, steps).db, id, invite, uid).value)
  {
    AccountStandsWhileNobodyRehomes(w, steps, uid);
    CommitClaimAdvances(Run(w, steps).db, id, invite, uid);
  }

  /**
   Without that discipline the account may have changed since it was looked up. The commit
   is then safe exactly when the row as it stands now would still not be demoted, is not a
   superadmin's that would be rewritten, and is claimable or already at home.
   */
  lemma CommitClaimSafeExactlyWhen(db: Db, id: InviteId, invite: Invite, uid: UserId)
    requires CommitClaim(db, id, invite, uid).Ok?
    ensures Advances(db, CommitClaim(db, id, invite, uid).value)
       <==> && Rank(db.users[uid].role) <= Rank(invite.role)
            && (IsClaimableMember(db.users[uid].org) || db.users[uid].org == Some(invite.org))
            && (db.users[uid].role == Superadmin ==> db.users[uid].org == Some(invite.org))
  {
    ClaimRestamps(db, id, invite, uid);
    var row := db.users[uid];
    var moved := row.(org := Some(invite.org), role := invite.role);
    assert CommitClaim(db, id, invite, uid).value.users[uid] == moved;
    if row.role == Superadmin && Rank(row.role) <= Rank(invite.role) {
      assert invite.role == Superadmin;
      assert moved == row <==> row.org == Some(invite.org);
    }
  }

  /**
   Two invites of two organizations, both past their lookup while the account was still
   claimable: both commits succeed, and the second moves a settled member. This is why the
   runs above ask for one claim at a time.
   */
  lemma SecondClaimInFlightMovesASettledMember(db: Db, id1: InviteId, one: Invite, id2: InviteId, two: Invite, uid: UserId)
    requires id1 in db.invites && id2 in db.invites && id1 != id2
    requires db.invites[id1].status == Pending && db.invites[id2].status == Pending
    requires StillClaimable(db, uid, one) && StillClaimable(db, uid, two)
    requires one.org != two.org && !IsClaimableMember(Some(one.org))
    requires forall resource :: Limit(db, one.org, resource).None? && Limit(db, two.org, resource).None?
    ensures var first := CommitClaim(db, id1, one, uid);
      && first.Ok? && Advances(db, first.value)
      && var second := CommitClaim(first.value, id2, two, uid);
         second.Ok? && !Advances(first.value, second.value)
  {
    var first := CommitClaim(db, id1, one, uid);
    var d := Consume(db, id1).value;
    assert forall resource :: Limit(d, one.org, resource) == Limit(db, one.org, resource);
    assert first.Ok?;
    ClaimRestamps(db, id1, one, uid);
    var e := Consume(first.value, id2).value;
    assert forall resource :: Limit(e, two.org, resource) == Limit(db, two.org, resource);
    var second := CommitClaim(first.value, id2, two, uid);
    assert second.Ok?;
    ClaimRestamps(first.value, id2, two, uid);
    assert first.value.users[uid].org == Some(one.org) && second.value.users[uid].org == Some(two.org);
  }
}

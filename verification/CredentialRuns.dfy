/** What holds of accounts and tokens over every interleaving of requests. */
module CredentialRuns {
  import opened Common
  import opened Credentials

  ghost predicate OneLiveToken(db: Db) {
    forall j, k :: (j in db.tokens && k in db.tokens && j.0 == k.0 && db.tokens[j].userId == db.tokens[k].userId
                    && db.tokens[j].usedAt == None && db.tokens[k].usedAt == None) ==> j == k
  }

  /** A request that redeemed a token did use it up, and no other request did. */
  ghost predicate Sound(w: World) {
    && EmailsUnique(w.db) && OneLiveToken(w.db)
    && (forall r :: r in w.requests ==> PhaseSound(w.db, w.requests[r]))
    && (forall r, s :: (r in w.requests && s in w.requests && w.requests[r].Redeemed? && w.requests[s].Redeemed?
                        && w.requests[r].key == w.requests[s].key) ==> r == s)
  }

  /** A request acts on the owner of the token it read; only a reset carries a password. */
  predicate PhaseSound(db: Db, p: Phase) {
    match p
    case HasRow(key, user, password) => Owns(db, key, user) && (password.Some? <==> key.0 == PasswordReset)
    case Redeeming(key, user, password) => Owns(db, key, user) && (password.Some? <==> key.0 == PasswordReset)
    case Redeemed(key, user) => Owns(db, key, user) && db.tokens[key].usedAt.Some?
    case Editing(user, loaded, row, _) =>
      user in db.users && SameUser(loaded, row) && SameUser(db.users[user], row) && row.verifiedAt == loaded.verifiedAt
    case _ => true
  }

  predicate Owns(db: Db, key: TokenKey, user: UserId) {
    key in db.tokens && db.tokens[key].userId == user
  }

  /** A used token stays used, and an account keeps its origin. */
  ghost predicate Evolves(x: Db, y: Db) {
    && (forall k :: k in x.tokens ==> k in y.tokens && LaterToken(x.tokens[k], y.tokens[k]))
    && (forall u :: u in x.users ==> u in y.users && SameUser(x.users[u], y.users[u]))
  }

  predicate LaterToken(s: Token, t: Token) {
    s.userId == t.userId && s.expiresAt == t.expiresAt && (s.usedAt.Some? ==> t.usedAt == s.usedAt)
  }

  predicate SameUser(u: User, v: User) {
    u.origin == v.origin
  }

  lemma EvolvesTwice(x: Db, y: Db, z: Db)
    requires Evolves(x, y) && Evolves(y, z)
    ensures Evolves(x, z)
  {
    forall k | k in x.tokens ensures k in z.tokens && LaterToken(x.tokens[k], z.tokens[k]) {
      assert LaterToken(x.tokens[k], y.tokens[k]);
    }
    forall u | u in x.users ensures u in z.users && SameUser(x.users[u], z.users[u]) {
      assert SameUser(x.users[u], y.users[u]);
    }
  }

  lemma MintKeeps(db: Db, kind: Kind, user: UserId, raw: string)
    requires OneLiveToken(db) && (kind, Hash(raw)) !in db.tokens
    ensures OneLiveToken(Mint(db, kind, user, raw)) && Evolves(db, Mint(db, kind, user, raw))
    ensures Mint(db, kind, user, raw).users == db.users && (EmailsUnique(db) ==> EmailsUnique(Mint(db, kind, user, raw)))
  {
  }

  lemma RedeemKeeps(db: Db, key: TokenKey, user: UserId, password: Option<string>)
    requires OneLiveToken(db) && EmailsUnique(db) && Redeem(db, key, user, password).Ok?
    ensures var d := Redeem(db, key, user, password).value;
            && OneLiveToken(d) && EmailsUnique(d) && Evolves(db, d)
            && key in db.tokens && db.tokens[key].usedAt == None && key in d.tokens && d.tokens[key].usedAt == Some(db.now)
  {
  }

  /** One request's step. */
  ghost predicate GoodStep(w: World, after: World, req: RequestId) {
    && Evolves(w.db, after.db) && EmailsUnique(after.db) && OneLiveToken(after.db)
    && req in after.requests && PhaseSound(after.db, after.requests[req])
    && (forall other :: other != req ==> (other in after.requests <==> other in w.requests))
    && (forall other :: other != req && other in w.requests ==> after.requests[other] == w.requests[other])
    && (after.requests[req].Redeemed? ==>
          (req in w.requests && after.requests[req] == w.requests[req])
          || (after.requests[req].key in w.db.tokens && w.db.tokens[after.requests[req].key].usedAt == None))
  }

  lemma ArrivedStep(w: World, req: RequestId, request: Request)
    requires Sound(w) && req in w.requests
    ensures GoodStep(w, StepArrived(w, req, request), req)
  {
    hide FindByEmail, Lower, EmailsUnique, OneLiveToken;
    var after := StepArrived(w, req, request);
    assert after.db == w.db && after.requests == w.requests[req := after.requests[req]];
  }

  lemma AdvanceStep(w: World, req: RequestId, user: UserId, raw: string)
    requires Sound(w) && req in w.requests
    ensures GoodStep(w, StepAdvance(w, req, user, raw), req)
  {
    hide StepArrived, Mint, Redeem, Saved, EmailsUnique, OneLiveToken;
    match w.requests[req]
    case Creating(form) => CreateStep(w, req, user, raw);
    case Arrived(request) => ArrivedStep(w, req, request);
    case Redeeming(key, owner, password) =>
      if Redeem(w.db, key, owner, password).Ok? {
        RedeemKeeps(w.db, key, owner, password);
      }
    case Minting(kind, owner) =>
      if (kind, Hash(raw)) !in w.db.tokens {
        MintKeeps(w.db, kind, owner, raw);
      }
    case Editing(_, _, _, _) => SaveStep(w, req, user, raw);
    case _ =>
  }

  lemma CreateStep(w: World, req: RequestId, user: UserId, raw: string)
    requires Sound(w) && req in w.requests && w.requests[req].Creating?
    ensures GoodStep(w, StepAdvance(w, req, user, raw), req)
  {
    hide Lower;
  }

  lemma SaveStep(w: World, req: RequestId, user: UserId, raw: string)
    requires Sound(w) && req in w.requests && w.requests[req].Editing?
    ensures GoodStep(w, StepAdvance(w, req, user, raw), req)
  {
    hide Saved, EmailsUnique, OneLiveToken;
    var p := w.requests[req];
    assert PhaseSound(w.db, p);
    if !TakenByAnother(w.db, p.row.email, p.user) {
      RowSaved(w.db, p.user, p.row, p.sent);
    }
  }

  lemma RowSaved(db: Db, user: UserId, row: User, sent: Option<Hash>)
    requires EmailsUnique(db) && OneLiveToken(db) && user in db.users && SameUser(db.users[user], row) && !TakenByAnother(db, row.email, user)
    ensures var d := Saved(db, user, row, sent); EmailsUnique(d) && OneLiveToken(d) && Evolves(db, d)
  {
  }

  lemma AdvanceStaysSound(w: World, req: RequestId, user: UserId, raw: string)
    requires Sound(w) && req in w.requests
    ensures Sound(StepAdvance(w, req, user, raw)) && Evolves(w.db, StepAdvance(w, req, user, raw).db)
  {
    hide StepAdvance;
    AdvanceStep(w, req, user, raw);
    var after := StepAdvance(w, req, user, raw);
    forall r | r in after.requests ensures PhaseSound(after.db, after.requests[r]) {
      if r != req {
        assert PhaseSound(w.db, w.requests[r]);
      }
    }
    forall s | s in after.requests && s != req && after.requests[s].Redeemed? && after.requests[req].Redeemed?
      ensures after.requests[s].key != after.requests[req].key
    {
      assert PhaseSound(w.db, w.requests[s]);
    }
  }

  lemma StepStaysSound(w: World, step: Step)
    requires Sound(w)
    ensures Sound(Apply(w, step)) && Evolves(w.db, Apply(w, step).db)
  {
    hide StepAdvance;
    match step
    case Advance(req, user, raw) =>
      if req in w.requests {
        AdvanceStaysSound(w, req, user, raw);
      } else {
        NothingToAdvance(w, req, user, raw);
      }
    case _ => OtherStepsStaySound(w, step);
  }

  lemma NothingToAdvance(w: World, req: RequestId, user: UserId, raw: string)
    requires req !in w.requests
    ensures StepAdvance(w, req, user, raw) == w
  {
  }

  /** A step that only rewrites accounts. */
  lemma AccountsRewritten(w: World, db: Db)
    requires Sound(w) && db.tokens == w.db.tokens && EmailsUnique(db)
    requires forall u :: u in w.db.users ==> u in db.users && SameUser(w.db.users[u], db.users[u])
    ensures Sound(World(db, w.requests)) && Evolves(w.db, db)
  {
    hide EmailsUnique;
    SameTokensSameLive(w.db, db);
    forall r | r in w.requests ensures PhaseSound(db, w.requests[r]) {
      assert PhaseSound(w.db, w.requests[r]);
    }
  }

  lemma OtherStepsStaySound(w: World, step: Step)
    requires Sound(w) && !step.Advance?
    ensures Sound(Apply(w, step)) && Evolves(w.db, Apply(w, step).db)
  {
    assert EmailsUnique(w.db);
    match step
    case Tick(ms) => AccountsRewritten(w, w.db.(now := w.db.now + ms));
    case Arrive(req, request) => ArrivalStaysSound(w, req, request);
    case LoadAccount(req, user, change) => LoadStaysSound(w, req, user, change);
    case Invited(user, row) =>
      AccountsRewritten(w, w.db);
      if user !in w.db.users && !Taken(w.db, row.email) {
        AccountsRewritten(w, SetUser(w.db, user, row));
      }
  }

  lemma LoadStaysSound(w: World, req: RequestId, user: UserId, change: Change)
    requires Sound(w)
    ensures Sound(Apply(w, LoadAccount(req, user, change))) && Evolves(w.db, Apply(w, LoadAccount(req, user, change)).db)
  {
    hide EmailsUnique, OneLiveToken, Lower, Taken;
    var after := Apply(w, LoadAccount(req, user, change));
    forall r | r in after.requests ensures PhaseSound(after.db, after.requests[r]) {
      if r in w.requests {
        assert PhaseSound(w.db, w.requests[r]);
      }
    }
  }

  lemma ArrivalStaysSound(w: World, req: RequestId, request: Request)
    requires Sound(w)
    ensures Sound(Apply(w, Arrive(req, request))) && Evolves(w.db, Apply(w, Arrive(req, request)).db)
  {
    hide EmailsUnique, OneLiveToken;
    var after := Apply(w, Arrive(req, request));
    forall r | r in after.requests ensures PhaseSound(after.db, after.requests[r]) {
      if r in w.requests {
        assert PhaseSound(w.db, w.requests[r]);
      }
    }
  }

  lemma SameTokensSameLive(x: Db, y: Db)
    requires x.tokens == y.tokens && OneLiveToken(x)
    ensures OneLiveToken(y)
  {
  }

  /** Over any interleaving: one live token per user and kind, used tokens stay used, accounts keep their origin. */
  lemma {:induction false} TokensOverEveryRun(w: World, steps: seq<Step>)
    requires Sound(w)
    ensures Sound(Run(w, steps)) && Evolves(w.db, Run(w, steps).db)
    decreases |steps|
  {
    hide Sound, Apply;
    if steps != [] {
      StepStaysSound(w, steps[0]);
      TokensOverEveryRun(Apply(w, steps[0]), steps[1..]);
      EvolvesTwice(w.db, Apply(w, steps[0]).db, Run(w, steps).db);
    } else {
      assert Run(w, steps) == w;
    }
  }

  /** However many requests present one link, at most one of them is let through. */
  lemma EachLinkWorksOnce(w: World, steps: seq<Step>, x: RequestId, y: RequestId)
    requires Sound(w)
    requires var after := Run(w, steps).requests;
             x in after && y in after && after[x].Redeemed? && after[y].Redeemed? && after[x].key == after[y].key
    ensures x == y
  {
    TokensOverEveryRun(w, steps);
  }

  // ---------------------------------------------------------------- saves of loaded accounts

  /** The step saves a loaded row of this account. */
  predicate SavesRow(w: World, step: Step, user: UserId) {
    step.Advance? && step.req in w.requests && w.requests[step.req].Editing? && w.requests[step.req].user == user
    && !TakenByAnother(w.db, w.requests[step.req].row.email, user)
  }

  /** What one step does to one account, apart from such saves. */
  lemma OtherStepsOnAnAccount(w: World, step: Step, user: UserId)
    requires Sound(w) && user in w.db.users && !SavesRow(w, step, user)
    ensures var after := Apply(w, step).db;
            && user in after.users
            && (w.db.users[user].verifiedAt.Some? ==> after.users[user].verifiedAt == w.db.users[user].verifiedAt)
            && (after.users[user].password != w.db.users[user].password <==> ResetsPassword(w, step, user))
            && after.users[user].firstName == w.db.users[user].firstName && after.users[user].lastName == w.db.users[user].lastName
  {
    hide Mint, FindByEmail, EmailsUnique, OneLiveToken;
    if step.Advance? && step.req in w.requests {
      assert PhaseSound(w.db, w.requests[step.req]);
      match w.requests[step.req] {
        case Minting(kind, owner) =>
          if (kind, Hash(step.raw)) !in w.db.tokens {
            MintUsers(w.db, kind, owner, step.raw);
          }
        case _ =>
      }
    }
  }

  lemma SaveOnAnAccount(w: World, step: Step, user: UserId)
    requires Sound(w) && user in w.db.users && SavesRow(w, step, user)
    ensures Apply(w, step).db == Saved(w.db, user, w.requests[step.req].row, w.requests[step.req].sent)
    ensures w.requests[step.req].row.verifiedAt == w.requests[step.req].loaded.verifiedAt
  {
    assert PhaseSound(w.db, w.requests[step.req]);
  }

  /** A verified address loses or changes its first time exactly when a row loaded before it was verified is saved after. */
  lemma VerificationTimeMovesExactlyWhen(w: World, step: Step, user: UserId)
    requires Sound(w) && user in w.db.users && w.db.users[user].verifiedAt.Some?
    ensures user in Apply(w, step).db.users
    ensures Apply(w, step).db.users[user].verifiedAt != w.db.users[user].verifiedAt
       <==> SavesRow(w, step, user) && w.requests[step.req].loaded.verifiedAt != w.db.users[user].verifiedAt
  {
    hide Sound, Apply, SavesRow;
    if SavesRow(w, step, user) {
      SaveOnAnAccount(w, step, user);
    } else {
      OtherStepsOnAnAccount(w, step, user);
    }
  }

  // ---------------------------------------------------------------- passwords

  /** A live reset link of the account is redeemed with another password. */
  predicate ResetsPassword(w: World, step: Step, user: UserId) {
    step.Advance? && step.req in w.requests && user in w.db.users
    && var p := w.requests[step.req];
    p.Redeeming? && p.key.0 == PasswordReset && p.user == user && p.newPassword.Some?
    && p.key in w.db.tokens && w.db.tokens[p.key].usedAt == None
    && Some(Hash(p.newPassword.value)) != w.db.users[user].password
  }

  /** An account's password changes in two ways: a redeemed reset link of its own, and the save of a profile update that sent one. */
  predicate SetsPassword(w: World, step: Step, user: UserId) {
    ResetsPassword(w, step, user)
    || (SavesRow(w, step, user) && user in w.db.users && w.requests[step.req].sent.Some?
        && w.requests[step.req].sent != w.db.users[user].password)
  }

  /** Exactly these two; names change by saves only; and only the owner's own update carries a password to its save. */
  lemma OnlyOwnersChangePasswords(w: World, step: Step, user: UserId)
    requires Sound(w) && user in w.db.users
    ensures var after := Apply(w, step).db;
            user in after.users
            && (after.users[user].password != w.db.users[user].password <==> SetsPassword(w, step, user))
            && (after.users[user].firstName != w.db.users[user].firstName || after.users[user].lastName != w.db.users[user].lastName
                ==> SavesRow(w, step, user))
    ensures forall change :: Edited(w.db, user, change).Editing? && Edited(w.db, user, change).sent.Some?
              ==> change.Profile? && change.own && change.password.Some?
  {
    hide Sound, Apply, SavesRow;
    if SavesRow(w, step, user) {
      SaveOnAnAccount(w, step, user);
      SavingIsNotRedeeming(w, step, user);
    } else {
      OtherStepsOnAnAccount(w, step, user);
    }
  }

  lemma SavingIsNotRedeeming(w: World, step: Step, user: UserId)
    requires SavesRow(w, step, user)
    ensures step.Advance? && step.req in w.requests && w.requests[step.req].Editing?
  {
  }

  /** No step of the run writes this account's password. */
  ghost predicate NobodySets(w: World, steps: seq<Step>, user: UserId)
    decreases |steps|
  {
    steps == [] || (!SetsPassword(w, steps[0], user) && NobodySets(Apply(w, steps[0]), steps[1..], user))
  }

  /** So over a run with no such write the password stands, whoever registers, verifies, asks for links or resets elsewhere. */
  lemma {:induction false} PasswordsStand(w: World, steps: seq<Step>, user: UserId)
    requires Sound(w) && user in w.db.users && NobodySets(w, steps, user)
    ensures user in Run(w, steps).db.users && Run(w, steps).db.users[user].password == w.db.users[user].password
    decreases |steps|
  {
    hide Sound, Apply;
    if steps != [] {
      StepStaysSound(w, steps[0]);
      OnlyOwnersChangePasswords(w, steps[0], user);
      PasswordsStand(Apply(w, steps[0]), steps[1..], user);
    }
  }

  lemma MintUsers(db: Db, kind: Kind, user: UserId, raw: string)
    ensures Mint(db, kind, user, raw).users == db.users && Mint(db, kind, user, raw).now == db.now
  {
  }

  /** A registration that finds its address taken leaves every account exactly as it was. */
  lemma RegisteringAgainTouchesNoAccount(w: World, req: RequestId, form: Registration, user: UserId, raw: string)
    requires EmailsUnique(w.db) && Taken(w.db, Lower(form.email))
    requires req in w.requests && w.requests[req] == Arrived(Register(form))
    ensures var read := StepAdvance(w, req, user, raw);
            var done := StepAdvance(read, req, user, raw);
            read.db == w.db && done.db.users == w.db.users
  {
    var read := StepAdvance(w, req, user, raw);
    if read.requests[req].Minting? {
      MintUsers(w.db, Verification, read.requests[req].user, raw);
    }
  }

  // ---------------------------------------------------------------- getting in

  lemma FoundIs(db: Db, user: UserId)
    requires EmailsUnique(db) && user in db.users
    ensures FindByEmail(db, db.users[user].email) == Some(user)
  {
  }

  /** A log-in succeeds exactly for an active, verified account with this password. */
  lemma LoginMeans(db: Db, email: string, password: string)
    requires EmailsUnique(db)
    ensures Login(db, email, password).Ok?
       <==> exists u :: u in db.users && db.users[u].email == Lower(email) && db.users[u].active
                        && db.users[u].verifiedAt.Some? && db.users[u].password == Some(Hash(password))
    ensures Login(db, email, password) == Err(Unverified)
       <==> exists u :: u in db.users && db.users[u].email == Lower(email) && db.users[u].active
                        && db.users[u].verifiedAt == None && db.users[u].password == Some(Hash(password))
  {
    var found := FindByEmail(db, Lower(email));
    forall u | u in db.users && db.users[u].email == Lower(email) ensures found == Some(u) {
      FoundIs(db, u);
    }
  }

  /** After a redeemed reset the account logs in with the new password and no other, verified or not before, exactly when it is active. */
  lemma ResetThenLogin(db: Db, key: TokenKey, user: UserId, newPassword: string, tried: string)
    requires EmailsUnique(db) && OneLiveToken(db) && user in db.users && db.users[user].email == Lower(db.users[user].email)
    requires Redeem(db, key, user, Some(newPassword)).Ok?
    ensures var d := Redeem(db, key, user, Some(newPassword)).value;
            Login(d, db.users[user].email, tried) == Ok(user) <==> db.users[user].active && tried == newPassword
  {
    RedeemKeeps(db, key, user, Some(newPassword));
    var d := Redeem(db, key, user, Some(newPassword)).value;
    FoundIs(d, user);
  }

  /** Sign up, follow the link, log in: closed before the link is followed, open after. */
  lemma SignUpVerifyLogin(db: Db, form: Registration, user: UserId, raw: string)
    requires EmailsUnique(db) && OneLiveToken(db)
    requires user !in db.users && !Taken(db, Lower(form.email)) && (Verification, Hash(raw)) !in db.tokens
    ensures var created := Mint(SetUser(db, user, NewAccount(form)), Verification, user, raw);
            && Login(created, form.email, form.password) == Err(Unverified)
            && Usable(created, Verification, raw).Ok?
            && Redeem(created, (Verification, Hash(raw)), user, None).Ok?
            && Login(Redeem(created, (Verification, Hash(raw)), user, None).value, form.email, form.password) == Ok(user)
            && Usable(Redeem(created, (Verification, Hash(raw)), user, None).value, Verification, raw) == Err(Used)
  {
    var added := SetUser(db, user, NewAccount(form));
    assert EmailsUnique(added);
    MintKeeps(added, Verification, user, raw);
    var created := Mint(added, Verification, user, raw);
    FoundIs(created, user);
    RedeemKeeps(created, (Verification, Hash(raw)), user, None);
    FoundIs(Redeem(created, (Verification, Hash(raw)), user, None).value, user);
  }

  /** Over a whole run, until somebody sets the password, an account that ends active and verified opens with the password it began with and no other. */
  lemma LogInOverARun(w: World, steps: seq<Step>, user: UserId, email: string, tried: string)
    requires Sound(w) && user in w.db.users && NobodySets(w, steps, user)
    requires user in Run(w, steps).db.users ==> Run(w, steps).db.users[user].email == Lower(email)
    ensures user in Run(w, steps).db.users
    ensures Login(Run(w, steps).db, email, tried) == Ok(user)
       <==> w.db.users[user].password == Some(Hash(tried))
            && Run(w, steps).db.users[user].active && Run(w, steps).db.users[user].verifiedAt.Some?
  {
    hide Run, NobodySets, FindByEmail;
    PasswordsStand(w, steps, user);
    TokensOverEveryRun(w, steps);
    FoundIs(Run(w, steps).db, user);
  }

  // ---------------------------------------------------------------- a verification taken back

  /** An account is loaded for a change, its address is verified, and the change is saved. */
  function VerifyWhileEditing(edit: RequestId, verify: RequestId, user: UserId, change: Change, raw: string): seq<Step> {
    [LoadAccount(edit, user, change)] + ([Arrive(verify, Verify(raw))] + ([Advance(verify, user, raw)] + ([Advance(verify, user, raw)]
    + ([Advance(verify, user, raw)] + ([Advance(edit, user, raw)] + [])))))
  }

  lemma RunTakes(w: World, step: Step, rest: seq<Step>)
    ensures Run(w, [step] + rest) == Run(Apply(w, step), rest)
  {
    assert ([step] + rest)[1..] == rest;
  }

  /** The link was let through and is used up, and the address is unverified again. */
  lemma AnEditTakesTheVerificationBack(w: World, edit: RequestId, verify: RequestId, user: UserId, change: Change, raw: string)
    requires Sound(w) && edit !in w.requests && verify !in w.requests && edit != verify
    requires user in w.db.users && w.db.users[user].active && w.db.users[user].verifiedAt == None
    requires Usable(w.db, Verification, raw).Ok? && Usable(w.db, Verification, raw).value.userId == user
    requires change.Profile? && Edited(w.db, user, change).Editing? && change.email == None
    ensures var after := Run(w, VerifyWhileEditing(edit, verify, user, change, raw));
            && verify in after.requests && after.requests[verify].Redeemed?
            && Usable(after.db, Verification, raw) == Err(Used)
            && user in after.db.users && after.db.users[user].verifiedAt == None
  {
    hide Sound, Run;
    var key := (Verification, Hash(raw));
    var p := Edited(w.db, user, change);
    UniqueHere(w, user);
    var w1 := Goes(w, w.db, edit, p);
    var w2 := Goes(w1, w.db, verify, Arrived(Verify(raw)));
    var w3 := Goes(w2, w.db, verify, HasRow(key, user, None));
    var w4 := Goes(w3, w.db, verify, Redeeming(key, user, None));
    var d := Redeem(w.db, key, user, None).value;
    var w5 := Goes(w4, d, verify, Redeemed(key, user));
    var w6 := Goes(w5, Saved(d, user, p.row, p.sent), edit, Answered);
    assert Apply(w2, Advance(verify, user, raw)) == w3;
    assert Apply(w3, Advance(verify, user, raw)) == w4;
    assert Apply(w4, Advance(verify, user, raw)) == w5;
    assert Apply(w5, Advance(edit, user, raw)) == w6;
    RunTakes(w, LoadAccount(edit, user, change), [Arrive(verify, Verify(raw))] + ([Advance(verify, user, raw)] + ([Advance(verify, user, raw)]
             + ([Advance(verify, user, raw)] + ([Advance(edit, user, raw)] + [])))));
    RunTakes(w1, Arrive(verify, Verify(raw)), [Advance(verify, user, raw)] + ([Advance(verify, user, raw)]
             + ([Advance(verify, user, raw)] + ([Advance(edit, user, raw)] + []))));
    RunTakes(w2, Advance(verify, user, raw), [Advance(verify, user, raw)] + ([Advance(verify, user, raw)] + ([Advance(edit, user, raw)] + [])));
    RunTakes(w3, Advance(verify, user, raw), [Advance(verify, user, raw)] + ([Advance(edit, user, raw)] + []));
    RunTakes(w4, Advance(verify, user, raw), [Advance(edit, user, raw)] + []);
    RunTakes(w5, Advance(edit, user, raw), []);
    NothingLeft(w6);
  }

  lemma NothingLeft(w: World)
    ensures Run(w, []) == w
  {
  }

  lemma UniqueHere(w: World, user: UserId)
    requires Sound(w) && user in w.db.users
    ensures !TakenByAnother(w.db, w.db.users[user].email, user)
  {
  }
}

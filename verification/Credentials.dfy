/**
 Accounts, mailed single-use tokens and the open sign-up: verification and reset links are
 minted by sweeping and inserting in one transaction, and consumed by a conditional update.
 Each request is split between its database calls, so requests interleave freely. Times are
 milliseconds.
 */
module Credentials {
  import opened Common

  type UserId = nat
  type RequestId = nat

  /** Password and token hashes: injective, and only ever compared. */
  datatype Hash = Hash(of: string)

  datatype Origin = Open | Closed

  datatype User = User(
    email: string, firstName: string, lastName: string, password: Option<Hash>, active: bool,
    verifiedAt: Option<int>, origin: Origin)

  datatype Kind = Verification | PasswordReset

  /** Token rows are keyed by kind and by their unique hash. */
  datatype Token = Token(userId: UserId, expiresAt: int, usedAt: Option<int>)

  type TokenKey = (Kind, Hash)

  datatype Db = Db(now: int, users: map<UserId, User>, tokens: map<TokenKey, Token>)

  /** 24 hours and 60 minutes. */
  function Lifetime(kind: Kind): int {
    match kind
    case Verification => 24 * 3_600_000
    case PasswordReset => 60 * 60_000
  }

  // ---------------------------------------------------------------- database steps

  predicate Taken(db: Db, email: string) {
    exists u :: u in db.users && db.users[u].email == email
  }

  /** The unique index on `users.email`. */
  ghost predicate EmailsUnique(db: Db) {
    forall u, v :: u in db.users && v in db.users && db.users[u].email == db.users[v].email ==> u == v
  }

  ghost function FindByEmail(db: Db, email: string): (found: Option<UserId>)
    ensures found.Some? ==> found.value in db.users && db.users[found.value].email == email
    ensures found.None? ==> !Taken(db, email)
  {
    if Taken(db, email) then
      var u :| u in db.users && db.users[u].email == email;
      Some(u)
    else None
  }

  function Swept(key: TokenKey, t: Token, kind: Kind, user: UserId, now: int): Token {
    if key.0 == kind && t.userId == user && t.usedAt == None then t.(usedAt := Some(now)) else t
  }

  /** Sweep every live token of this kind and user. */
  function Sweep(db: Db, kind: Kind, user: UserId): Db {
    db.(tokens := map k | k in db.tokens :: Swept(k, db.tokens[k], kind, user, db.now))
  }

  /** The mint transaction, for a raw token never used before. */
  function Mint(db: Db, kind: Kind, user: UserId, raw: string): Db {
    var swept := Sweep(db, kind, user);
    swept.(tokens := swept.tokens[(kind, Hash(raw)) := Token(user, db.now + Lifetime(kind), None)])
  }

  datatype Reason = Invalid | Used | Expired | Disabled | BadCredentials | Unverified | Conflict | PasswordSelfOnly

  /** The reads of `verify` and `resetPassword`: the row first. */
  function Usable(db: Db, kind: Kind, raw: string): Result<Token, Reason> {
    if (kind, Hash(raw)) !in db.tokens then Err(Invalid)
    else
      var t := db.tokens[(kind, Hash(raw))];
      if t.usedAt.Some? then Err(Used) else if t.expiresAt <= db.now then Err(Expired) else Ok(t)
  }

  /** Then the account. */
  function Eligible(db: Db, user: UserId): Option<Reason> {
    if user !in db.users then Some(Invalid) else if !db.users[user].active then Some(Disabled) else None
  }

  /** `UPDATE ... SET used_at = now() WHERE id = :id AND used_at IS NULL`; the flag is `affected === 1`. */
  function Consume(db: Db, key: TokenKey): (Db, bool) {
    if key in db.tokens && db.tokens[key].usedAt == None
    then (db.(tokens := db.tokens[key := db.tokens[key].(usedAt := Some(db.now))]), true)
    else (db, false)
  }

  /** Stamp the address verified, keeping the first time. */
  function Stamp(u: User, now: int): User {
    u.(verifiedAt := if u.verifiedAt.Some? then u.verifiedAt else Some(now))
  }

  function SetUser(db: Db, user: UserId, u: User): Db {
    db.(users := db.users[user := u])
  }

  /** What the transaction writes to the account besides the token. */
  function Effect(u: User, password: Option<string>, now: int): User {
    match password
    case None => Stamp(u, now)
    case Some(p) => Stamp(u.(password := Some(Hash(p))), now)
  }

  /** The consuming transaction: rolled back whole when the token was already used. */
  function Redeem(db: Db, key: TokenKey, user: UserId, password: Option<string>): Result<Db, Reason> {
    var (consumed, affected) := Consume(db, key);
    if !affected then Err(Used)
    else if user !in db.users then Ok(consumed)
    else Ok(SetUser(consumed, user, Effect(db.users[user], password, db.now)))
  }

  /** `validateCredentials`. */
  ghost function Login(db: Db, email: string, password: string): Result<UserId, Reason> {
    match FindByEmail(db, Lower(email))
    case None => Err(BadCredentials)
    case Some(id) =>
      var u := db.users[id];
      if !u.active || u.password == None then Err(BadCredentials)
      else if u.password != Some(Hash(password)) then Err(BadCredentials)
      else if u.verifiedAt == None then Err(Unverified)
      else Ok(id)
  }

  // ---------------------------------------------------------------- requests

  datatype Registration = Registration(email: string, firstName: string, lastName: string, password: string)

  datatype Request =
    | AskVerification(email: string)
    | AskReset(email: string)
    | Verify(raw: string)
    | ResetPassword(raw: string, password: string)
    | Register(form: Registration)

  datatype Phase =
    | Arrived(request: Request)
    | HasRow(key: TokenKey, user: UserId, newPassword: Option<string>)
    | Redeeming(key: TokenKey, user: UserId, newPassword: Option<string>)
    | Creating(form: Registration)
    | Minting(kind: Kind, user: UserId)
    | Redeemed(key: TokenKey, user: UserId)
    | Editing(user: UserId, loaded: User, row: User, sent: Option<Hash>)
    | Answered
    | Refused(reason: Reason)

  datatype World = World(db: Db, requests: map<RequestId, Phase>)

  /** What staff or the owner may ask of an account; fields not sent are `None`. */
  datatype Change =
    | Access(active: bool)
    | Profile(own: bool, email: Option<string>, firstName: Option<string>, lastName: Option<string>, password: Option<string>)

  /** `user` and `raw` in a step are the fresh values the database and the token generator hand out. */
  datatype Step =
    | Tick(ms: nat)
    | Arrive(req: RequestId, request: Request)
    | Advance(req: RequestId, user: UserId, raw: string)
    | LoadAccount(req: RequestId, user: UserId, change: Change)
    | Invited(user: UserId, row: User)

  function Goes(w: World, db: Db, req: RequestId, phase: Phase): World {
    World(db, w.requests[req := phase])
  }

  /** The first database call of each request. */
  ghost function StepArrived(w: World, req: RequestId, request: Request): World {
    match request
    case AskVerification(email) =>
      (match FindByEmail(w.db, Lower(email))
       case None => Goes(w, w.db, req, Answered)
       case Some(id) =>
         var u := w.db.users[id];
         Goes(w, w.db, req, if !u.active || u.verifiedAt.Some? then Answered else Minting(Verification, id)))
    case AskReset(email) =>
      (match FindByEmail(w.db, Lower(email))
       case None => Goes(w, w.db, req, Answered)
       case Some(id) =>
         var u := w.db.users[id];
         Goes(w, w.db, req, if !u.active || u.password == None then Answered else Minting(PasswordReset, id)))
    case Verify(raw) =>
      (match Usable(w.db, Verification, raw)
       case Err(e) => Goes(w, w.db, req, Refused(e))
       case Ok(t) => Goes(w, w.db, req, HasRow((Verification, Hash(raw)), t.userId, None)))
    case ResetPassword(raw, password) =>
      (match Usable(w.db, PasswordReset, raw)
       case Err(e) => Goes(w, w.db, req, Refused(e))
       case Ok(t) => Goes(w, w.db, req, HasRow((PasswordReset, Hash(raw)), t.userId, Some(password))))
    case Register(form) =>
      (match FindByEmail(w.db, Lower(form.email))
       case None => Goes(w, w.db, req, Creating(form))
       case Some(id) =>
         var u := w.db.users[id];
         Goes(w, w.db, req, if u.verifiedAt == None && u.origin == Open then Minting(Verification, id) else Answered))
  }

  /** `createOpenSelfSignup`. */
  function NewAccount(form: Registration): User {
    User(Lower(form.email), form.firstName, form.lastName, Some(Hash(form.password)), true, None, Open)
  }

  ghost function StepAdvance(w: World, req: RequestId, user: UserId, raw: string): World {
    if req !in w.requests then w
    else
      match w.requests[req]
      case Arrived(request) => StepArrived(w, req, request)
      case HasRow(key, owner, password) =>
        Goes(w, w.db, req, if Eligible(w.db, owner).Some? then Refused(Eligible(w.db, owner).value) else Redeeming(key, owner, password))
      case Redeeming(key, owner, password) =>
        (match Redeem(w.db, key, owner, password)
         case Err(e) => Goes(w, w.db, req, Refused(e))
         case Ok(d) => Goes(w, d, req, Redeemed(key, owner)))
      case Creating(form) =>
        if user in w.db.users then w
        else if Taken(w.db, Lower(form.email)) then Goes(w, w.db, req, Refused(Conflict))
        else Goes(w, SetUser(w.db, user, NewAccount(form)), req, Minting(Verification, user))
      case Minting(kind, owner) =>
        if (kind, Hash(raw)) in w.db.tokens then w else Goes(w, Mint(w.db, kind, owner, raw), req, Answered)
      case Editing(owner, _, row, sent) =>
        if TakenByAnother(w.db, row.email, owner) then Goes(w, w.db, req, Refused(Conflict))
        else Goes(w, Saved(w.db, owner, row, sent), req, Answered)
      case _ => w
  }

  /** The unique index on `users.email`, for a row about to be saved. */
  predicate TakenByAnother(db: Db, email: string, user: UserId) {
    exists u :: u in db.users && u != user && db.users[u].email == email
  }

  /** The whole loaded row is written, except the password hash: it is not selected, so it is written only when set. */
  function Saved(db: Db, user: UserId, row: User, sent: Option<Hash>): Db {
    var stored := if user in db.users then db.users[user].password else None;
    SetUser(db, user, row.(password := if sent.Some? then sent else stored))
  }

  /** `setAccess` and the credential side of `update`: load and check; the loaded row is saved later. */
  function Edited(db: Db, user: UserId, change: Change): Phase {
    if user !in db.users then Refused(Invalid)
    else
      var u := db.users[user];
      match change
      case Access(active) => if u.active == active then Answered else Editing(user, u, u.(active := active), None)
      case Profile(own, email, firstName, lastName, password) =>
        var newEmail := if email.Some? && email.value != "" then Lower(email.value) else u.email;
        if newEmail != u.email && Taken(db, newEmail) then Refused(Conflict)
        else if password.Some? && password.value != "" && !own then Refused(PasswordSelfOnly)
        else
          Editing(user, u, u.(
            email := newEmail, firstName := if firstName.Some? then firstName.value else u.firstName,
            lastName := if lastName.Some? then lastName.value else u.lastName),
            if password.Some? && password.value != "" then Some(Hash(password.value)) else None)
  }

  ghost function Apply(w: World, step: Step): World {
    match step
    case Tick(ms) => w.(db := w.db.(now := w.db.now + ms))
    case Arrive(req, request) => if req in w.requests then w else Goes(w, w.db, req, Arrived(request))
    case Advance(req, user, raw) => StepAdvance(w, req, user, raw)
    case LoadAccount(req, user, change) => if req in w.requests then w else Goes(w, w.db, req, Edited(w.db, user, change))
    case Invited(user, row) =>
      if user in w.db.users || Taken(w.db, row.email) then w else w.(db := SetUser(w.db, user, row))
  }

  ghost function Run(w: World, steps: seq<Step>): World
    decreases |steps|
  {
    if steps == [] then w else Run(Apply(w, steps[0]), steps[1..])
  }
}

/** Verification, reset and sign-up in their own form, one call at a time. */
module CredentialsService {
  import opened Common
  import opened Credentials
  import opened CredentialRuns

  /** `verify` and `resetPassword` run without interference. */
  function Redemption(db: Db, kind: Kind, raw: string, password: Option<string>): Result<Db, Reason> {
    match Usable(db, kind, raw)
    case Err(e) => Err(e)
    case Ok(t) => if Eligible(db, t.userId).Some? then Err(Eligible(db, t.userId).value) else Redeem(db, (kind, Hash(raw)), t.userId, password)
  }

  /** `register` run without interference, for a fresh account id and raw token. */
  ghost function Registered(db: Db, form: Registration, user: UserId, raw: string): Db {
    match FindByEmail(db, Lower(form.email))
    case None => Mint(SetUser(db, user, NewAccount(form)), Verification, user, raw)
    case Some(id) => if db.users[id].verifiedAt == None && db.users[id].origin == Open then Mint(db, Verification, id, raw) else db
  }

  /** Run alone, a usable link of an active account always works: the conditional update cannot miss. */
  lemma RedemptionSucceedsExactlyWhen(db: Db, kind: Kind, raw: string, password: Option<string>)
    ensures Redemption(db, kind, raw, password).Ok?
       <==> (kind, Hash(raw)) in db.tokens
            && var t := db.tokens[(kind, Hash(raw))];
               t.usedAt == None && db.now < t.expiresAt && t.userId in db.users && db.users[t.userId].active
  {
  }

  lemma MintedIsLive(db: Db, user: UserId, raw: string)
    requires OneLiveToken(db) && (Verification, Hash(raw)) !in db.tokens
    ensures var d := Mint(db, Verification, user, raw);
            && OneLiveToken(d) && d.users == db.users && d.now == db.now
            && (Verification, Hash(raw)) in d.tokens && d.tokens[(Verification, Hash(raw))] == Token(user, db.now + Lifetime(Verification), None)
            && (forall k :: k in d.tokens <==> k in db.tokens || k == (Verification, Hash(raw)))
            && (forall k :: k in db.tokens && k.0 == Verification && db.tokens[k].userId == user && k != (Verification, Hash(raw)) ==> d.tokens[k].usedAt.Some?)
  {
    MintKeeps(db, Verification, user, raw);
  }

  /**
   Signing up twice with one address and following the second link: the account opens with the
   first form's password and no other, so the second form's works exactly when it is the same.
   */
  lemma TheFirstPasswordStands(
    db: Db, first: Registration, second: Registration, user: UserId, other: UserId, raw: string, again: string, tried: string)
    requires EmailsUnique(db) && OneLiveToken(db) && Lower(second.email) == Lower(first.email) && raw != again
    requires user !in db.users && !Taken(db, Lower(first.email))
    requires (Verification, Hash(raw)) !in db.tokens && (Verification, Hash(again)) !in db.tokens
    ensures var twice := Registered(Registered(db, first, user, raw), second, other, again);
            && Redemption(twice, Verification, raw, None) == Err(Used)
            && Redemption(twice, Verification, again, None).Ok?
            && var verified := Redemption(twice, Verification, again, None).value;
               (Login(verified, second.email, tried) == Ok(user) <==> tried == first.password)
               && (Login(verified, second.email, second.password) == Ok(user) <==> second.password == first.password)
  {
    hide FindByEmail, Mint, OneLiveToken, Lower;
    var added := SetUser(db, user, NewAccount(first));
    assert EmailsUnique(added);
    assert OneLiveToken(added) by { SameTokensSameLive(db, added); }
    MintedIsLive(added, user, raw);
    var created := Mint(added, Verification, user, raw);
    SameUsersSameAddresses(added, created);
    FoundIs(created, user);
    FindByEmailFree(db, Lower(first.email));
    MintedIsLive(created, user, again);
    var twice := Mint(created, Verification, user, again);
    RedemptionSucceedsExactlyWhen(twice, Verification, again, None);
    var verified := Redemption(twice, Verification, again, None).value;
    assert verified.users[user].password == Some(Hash(first.password));
    SameAddresses(added, verified);
    FoundIs(verified, user);
  }

  lemma FindByEmailFree(db: Db, email: string)
    requires !Taken(db, email)
    ensures FindByEmail(db, email) == None
  {
  }

  lemma SameUsersSameAddresses(x: Db, y: Db)
    requires EmailsUnique(x) && y.users == x.users
    ensures EmailsUnique(y)
  {
  }

  lemma SameAddresses(x: Db, y: Db)
    requires EmailsUnique(x) && y.users.Keys == x.users.Keys && forall u :: u in x.users ==> y.users[u].email == x.users[u].email
    ensures EmailsUnique(y)
  {
  }

  class Service {
    var now: int
    var users: map<UserId, User>
    var tokens: map<TokenKey, Token>

    constructor (db: Db)
      ensures Rows() == db
    {
      now, users, tokens := db.now, db.users, db.tokens;
    }

    function Rows(): Db
      reads this
    {
      Db(now, users, tokens)
    }

    method Find(email: string) returns (found: Option<UserId>)
      requires EmailsUnique(Rows())
      ensures found == FindByEmail(Rows(), email)
    {
      if Taken(Rows(), email) {
        var u :| u in users && users[u].email == email;
        FoundIs(Rows(), u);
        return Some(u);
      }
      found := None;
    }

    /** `issue`: sweep, then insert, in one transaction. */
    method Issue(kind: Kind, user: UserId, raw: string)
      modifies this`tokens
      ensures Rows() == Mint(old(Rows()), kind, user, raw)
    {
      var rows := tokens;
      tokens := map k | k in rows :: Swept(k, rows[k], kind, user, now);
      tokens := tokens[(kind, Hash(raw)) := Token(user, now + Lifetime(kind), None)];
    }

    /** The consuming transaction of both services: `password` is set by a reset only. */
    method RedeemToken(kind: Kind, raw: string, password: Option<string>) returns (refused: Option<Reason>)
      modifies this`users, this`tokens
      ensures match Redemption(old(Rows()), kind, raw, password)
              case Err(e) => refused == Some(e) && Rows() == old(Rows())
              case Ok(d) => refused == None && Rows() == d
    {
      var key := (kind, Hash(raw));
      if key !in tokens {
        return Some(Invalid);
      }
      var row := tokens[key];
      if row.usedAt.Some? {
        return Some(Used);
      }
      if row.expiresAt <= now {
        return Some(Expired);
      }
      if row.userId !in users {
        return Some(Invalid);
      }
      var user := users[row.userId];
      if !user.active {
        return Some(Disabled);
      }
      tokens := tokens[key := row.(usedAt := Some(now))];
      if password.Some? {
        user := user.(password := Some(Hash(password.value)));
      }
      if user.verifiedAt == None {
        user := user.(verifiedAt := Some(now));
      }
      users := users[row.userId := user];
      refused := None;
    }

    /** `requestReset`. */
    method RequestReset(email: string, raw: string)
      requires EmailsUnique(Rows())
      modifies this`tokens
      ensures match FindByEmail(old(Rows()), Lower(email))
              case None => Rows() == old(Rows())
              case Some(id) => Rows() == if users[id].active && users[id].password.Some? then Mint(old(Rows()), PasswordReset, id, raw) else old(Rows())
    {
      var found := Find(Lower(email));
      if found.None? || !users[found.value].active || users[found.value].password == None {
        return;
      }
      Issue(PasswordReset, found.value, raw);
    }

    /** `requestVerification`. */
    method RequestVerification(email: string, raw: string)
      requires EmailsUnique(Rows())
      modifies this`tokens
      ensures match FindByEmail(old(Rows()), Lower(email))
              case None => Rows() == old(Rows())
              case Some(id) => Rows() == if users[id].active && users[id].verifiedAt == None then Mint(old(Rows()), Verification, id, raw) else old(Rows())
    {
      var found := Find(Lower(email));
      if found.None? || !users[found.value].active || users[found.value].verifiedAt.Some? {
        return;
      }
      Issue(Verification, found.value, raw);
    }

    /** `register`, with the id the insert hands out. */
    method Register(form: Registration, user: UserId, raw: string)
      requires EmailsUnique(Rows())
      modifies this`users, this`tokens
      ensures Rows() == Registered(old(Rows()), form, user, raw)
    {
      var email := Lower(form.email);
      var existing := Find(email);
      if existing.None? {
        users := users[user := User(email, form.firstName, form.lastName, Some(Hash(form.password)), true, None, Open)];
        Issue(Verification, user, raw);
        return;
      }
      if users[existing.value].verifiedAt == None && users[existing.value].origin == Open {
        Issue(Verification, existing.value, raw);
      }
    }

    /** `validateCredentials`. */
    method ValidateCredentials(email: string, password: string) returns (r: Result<UserId, Reason>)
      requires EmailsUnique(Rows())
      ensures r == Login(Rows(), email, password)
    {
      var found := Find(Lower(email));
      if found.None? || !users[found.value].active || users[found.value].password == None {
        return Err(BadCredentials);
      }
      if users[found.value].password.value != Hash(password) {
        return Err(BadCredentials);
      }
      if users[found.value].verifiedAt == None {
        return Err(Unverified);
      }
      r := Ok(found.value);
    }
  }
}

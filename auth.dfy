/** Sign-in and sessions (services/auth.service.ts): logging in, registering,
    logging out, refreshing an access token, verifying an account with the
    mailed code and resending that code. A refresh session is recorded in
    the cache under "rt:<user>:<jti>", and a revoked refresh token under
    "bl:jti:<jti>". Signing and checking tokens (jsonwebtoken), password
    checking (bcrypt), the random ids and the clock are parameters; `now`
    is the clock in milliseconds, and tokens count whole seconds,
    `now / 1000`. */
module Auth {
  import opened Wrappers
  import opened Schema
  import opened Rows
  import opened Tables
  import Otps
  import Users
  import Addresses

  /** The lifetime of a refresh session, in seconds. */
  const Day := 24 * 60 * 60

  const Locked := "Account is locked. Please try again later."
  const InvalidRefresh := "Invalid refresh token"
  const LogoutDone := "Logout successful"

  /** The failure jsonwebtoken raises for a refresh token it refuses (a bad
      signature, a malformed token, an expired one). */
  const JwtRefused := "jwt refused"

  // --------------------------------------------------------- cache keys

  function RefreshKey(userId: Id, jti: string): string {
    "rt:" + userId + ":" + jti
  }

  function RevokedKey(jti: string): string {
    "bl:jti:" + jti
  }

  /** A session key is never a revocation key. */
  lemma KeysApart(userId: Id, jti: string, other: string)
    ensures RefreshKey(userId, jti) != RevokedKey(other)
  {
    assert RefreshKey(userId, jti)[0] == 'r';
    assert RevokedKey(other)[0] == 'b';
  }

  /** Each token id has its own revocation key. */
  lemma RevokedKeyInjective(a: string, b: string)
    requires RevokedKey(a) == RevokedKey(b)
    ensures a == b
  {
    assert a == RevokedKey(a)[7..];
    assert b == RevokedKey(b)[7..];
  }

  // ------------------------------------------------------------- tokens

  /** What a refresh token carries: the user, the token id (empty when the
      token has none) and the expiry, in seconds. */
  datatype Claims = Claims(userId: Id, jti: string, exp: int)

  /** jwt.verify with the refresh secret at second `sec`: `decode` gives the
      claims of a token whose signature checks, and the token is refused
      from its expiry on. */
  function Verified(token: string, decode: string -> Option<Claims>, sec: int): (r: Option<Claims>)
    ensures r.Some? <==> decode(token).Some? && sec < decode(token).value.exp
    ensures r.Some? ==> r == decode(token)
  {
    if decode(token).Some? && sec < decode(token).value.exp then decode(token) else None
  }

  /** jwt.sign with the access secret (30 minutes) and with the refresh
      secret (one day, with a token id). */
  datatype Signer = Signer(access: Payload -> string, refresh: (Payload, string) -> string)

  /** What both tokens carry about the user. */
  datatype Payload = Payload(userId: Id, email: string, role: UserRole)

  function PayloadOf(u: User): (p: Payload)
    ensures p.userId == u.id && p.email == u.email && p.role == u.role
  {
    Payload(u.id, u.email, u.role)
  }

  /** The tokens never carry the password, the verification or lockout
      flags or the creation time: login, which reads the row without
      createdAt, signs the same tokens as a full read would. */
  lemma TokensIgnoreHiddenColumns(u: User, v: User, signer: Signer, jti: string)
    requires u.id == v.id && u.email == v.email && u.role == v.role
    ensures signer.access(PayloadOf(u)) == signer.access(PayloadOf(v))
    ensures signer.refresh(PayloadOf(u), jti) == signer.refresh(PayloadOf(v), jti)
  {
  }

  datatype Session = Session(user: User, accessToken: string, refreshToken: string)

  /** The cache once a refresh session is recorded for one day. */
  function SessionStored(entries: map<string, CacheValue>, userId: Id, jti: string): map<string, CacheValue> {
    entries[RefreshKey(userId, jti) := TokenValue("valid", Day)]
  }

  /** getLoginResponse: both tokens for the user, the refresh one under the
      token id `jti`, and the session recorded in the cache. */
  method IssueTokens(cache: Redis, user: User, signer: Signer, jti: string) returns (s: Session)
    modifies cache`entries
    ensures s == Session(user, signer.access(PayloadOf(user)), signer.refresh(PayloadOf(user), jti))
    ensures cache.entries == SessionStored(old(cache.entries), user.id, jti)
  {
    var accessToken := signer.access(PayloadOf(user));
    var refreshToken := signer.refresh(PayloadOf(user), jti);
    cache.entries := cache.entries[RefreshKey(user.id, jti) := TokenValue("valid", Day)];
    s := Session(user, accessToken, refreshToken);
  }

  // -------------------------------------------------------------- login

  /** The decision login takes on the row found by e-mail. */
  datatype Gate = Refused(msg: string) | MustVerify(user: User) | Admitted(user: User)

  function LoginGate(found: Option<User>, password: string, matches: (string, string) -> bool): Gate {
    if found.None? then Refused("User not found")
    else if found.value.lockoutEnd then Refused(Locked)
    else if !matches(password, found.value.password) then Refused("Invalid password")
    else if !found.value.emailVerified then MustVerify(found.value)
    else Admitted(found.value)
  }

  /** A session is granted exactly to an unlocked, verified user whose
      password matches; an unverified user with the right password is sent
      a code instead; everyone else is refused. */
  lemma LoginGateMeaning(found: Option<User>, password: string, matches: (string, string) -> bool)
    ensures LoginGate(found, password, matches).Admitted? <==>
      found.Some? && !found.value.lockoutEnd && matches(password, found.value.password) && found.value.emailVerified
    ensures LoginGate(found, password, matches).MustVerify? <==>
      found.Some? && !found.value.lockoutEnd && matches(password, found.value.password) && !found.value.emailVerified
    ensures !LoginGate(found, password, matches).Refused? ==> LoginGate(found, password, matches).user == found.value
  {
  }

  /** A locked account is refused before the password is looked at: the
      answer is the same whatever password is tried. */
  lemma LockedRevealsNothing(found: Option<User>, p: string, q: string, matches: (string, string) -> bool)
    requires found.Some? && found.value.lockoutEnd
    ensures LoginGate(found, p, matches) == LoginGate(found, q, matches) == Refused(Locked)
  {
  }

  /** Once banned, the user cannot log in with any password. */
  lemma BannedCannotLogIn(users: seq<User>, email: string, password: string, matches: (string, string) -> bool)
    requires UserWithEmail(users, email).Some?
    ensures var id := UserWithEmail(users, email).value.id;
      LoginGate(UserWithEmail(Users.WithLockout(users, id, true), email), password, matches) == Refused(Locked)
  {
    var id := UserWithEmail(users, email).value.id;
    FirstUpdate(users, (u: User) => u.email == email, (u: User) => u.id == id, (u: User) => u.(lockoutEnd := true));
  }

  /** What login answers: the code was mailed, or a session. */
  datatype LoginResponse = VerifyFirst(issued: Otps.Issued) | LoggedIn(session: Session)

  /** login: refused for an unknown e-mail, a locked account or a wrong
      password; an unverified user is mailed a fresh code; anyone else gets
      a session. */
  method Login(db: Database, cache: Redis, mailer: Mailer, email: string, password: string,
               matches: (string, string) -> bool, signer: Signer, jti: string,
               rowId: Id, otpToken: string, draws: seq<real>, now: int, s: Otps.Secret)
    returns (r: Result<LoginResponse>)
    requires Otps.Draws(draws) && |draws| >= 6
    modifies db`otps, cache`entries, mailer`sent
    ensures var g := LoginGate(UserWithEmail(db.users, email), password, matches);
      && (g.Refused? ==>
            r == Err(g.msg) && db.otps == old(db.otps) &&
            cache.entries == old(cache.entries) && mailer.sent == old(mailer.sent))
      && (g.MustVerify? ==>
            && r == Ok(VerifyFirst(Otps.Issued(otpToken, now + Otps.Lifetime)))
            && db.otps == Otps.Replaced(old(db.otps), g.user.id,
                 Otps.IssuedRow(rowId, otpToken, Otps.CodeOf(draws[..6]), g.user.id, now, s))
            && mailer.sent == old(mailer.sent) + [Mail(email, Otps.Subject, Otps.Template, Otps.CodeOf(draws[..6]))]
            && cache.entries == old(cache.entries))
      && (g.Admitted? ==>
            && r == Ok(LoggedIn(Session(g.user, signer.access(PayloadOf(g.user)), signer.refresh(PayloadOf(g.user), jti))))
            && cache.entries == SessionStored(old(cache.entries), g.user.id, jti)
            && db.otps == old(db.otps) && mailer.sent == old(mailer.sent))
  {
    var found := UserWithEmail(db.users, email);
    var g := LoginGate(found, password, matches);
    match g
    case Refused(msg) =>
      r := Err(msg);
    case MustVerify(user) =>
      var issued := Otps.SendVerificationEmail(db, mailer, email, user.id, rowId, otpToken, draws, now, s);
      r := Ok(VerifyFirst(issued));
    case Admitted(user) =>
      var session := IssueTokens(cache, user, signer, jti);
      r := Ok(LoggedIn(session));
  }

  // ----------------------------------------------------------- register

  datatype RegisterRequest = RegisterRequest(
    email: string, password: string, dateOfBirth: string, fullName: string,
    phoneNumber: string, gender: string, address: string)

  /** No two users share an e-mail address. */
  predicate UniqueEmails(users: seq<User>) {
    forall i, j :: 0 <= i < j < |users| ==> users[i].email != users[j].email
  }

  /** The address row created with the account: the user's default. */
  function FirstAddress(id: Id, req: RegisterRequest, userId: Id): (a: Address)
    ensures a.userId == userId && a.isDefault && a.specificAddress == ""
  {
    Address(id, req.fullName, req.address, req.phoneNumber, "", true, userId)
  }

  /** Registering an unused e-mail keeps e-mail addresses unique. */
  lemma RegisterKeepsEmailsUnique(users: seq<User>, u: User)
    requires UniqueEmails(users) && UserWithEmail(users, u.email).None?
    ensures UniqueEmails(users + [u])
  {
    var all := users + [u];
    forall i, j | 0 <= i < j < |all| ensures all[i].email != all[j].email {
      if j == |users| {
        assert all[i] == users[i];
      } else {
        assert all[i] == users[i] && all[j] == users[j];
      }
    }
  }

  /** A fresh user starts with exactly one address, the default one. */
  lemma NewUserHasOneDefault(addresses: seq<Address>, a: Address)
    requires forall i :: 0 <= i < |addresses| ==> addresses[i].userId != a.userId
    ensures Addresses.OwnedBy(addresses + [a], a.userId) == [a]
  {
    KeepAppend(addresses, [a], (x: Address) => x.userId == a.userId);
    KeepNone(addresses, (x: Address) => x.userId == a.userId);
    assert [a][1..] == [];
  }

  /** register: an e-mail already in use is refused; otherwise a customer
      is inserted with the hash of the password, unverified and unlocked,
      with the given address as its default, and a code is mailed. */
  method Register(db: Database, mailer: Mailer, req: RegisterRequest, passwordHash: string,
                  userId: Id, addressId: Id, rowId: Id, otpToken: string,
                  draws: seq<real>, now: int, s: Otps.Secret)
    returns (r: Result<Otps.Issued>)
    requires Otps.Draws(draws) && |draws| >= 6
    modifies db`users, db`addresses, db`otps, mailer`sent
    ensures UserWithEmail(old(db.users), req.email).Some? ==>
      && r == Err("This email already exists")
      && db.users == old(db.users) && db.addresses == old(db.addresses)
      && db.otps == old(db.otps) && mailer.sent == old(mailer.sent)
    ensures UserWithEmail(old(db.users), req.email).None? ==>
      && r == Ok(Otps.Issued(otpToken, now + Otps.Lifetime))
      && db.users == old(db.users) +
           [NewUser(userId, req.fullName, req.email, req.dateOfBirth, req.gender, passwordHash, now)]
      && db.addresses == old(db.addresses) + [FirstAddress(addressId, req, userId)]
      && db.otps == Otps.Replaced(old(db.otps), userId,
           Otps.IssuedRow(rowId, otpToken, Otps.CodeOf(draws[..6]), userId, now, s))
      && mailer.sent == old(mailer.sent) + [Mail(req.email, Otps.Subject, Otps.Template, Otps.CodeOf(draws[..6]))]
    ensures UniqueEmails(old(db.users)) ==> UniqueEmails(db.users)
  {
    if UserWithEmail(db.users, req.email).Some? {
      return Err("This email already exists");
    }
    var user := NewUser(userId, req.fullName, req.email, req.dateOfBirth, req.gender, passwordHash, now);
    if UniqueEmails(db.users) {
      RegisterKeepsEmailsUnique(db.users, user);
    }
    db.users := db.users + [user];
    db.addresses := db.addresses + [FirstAddress(addressId, req, userId)];
    var issued := Otps.SendVerificationEmail(db, mailer, req.email, userId, rowId, otpToken, draws, now, s);
    r := Ok(issued);
  }

  // ------------------------------------------------------------- logout

  /** The cache after logging out a token with an id: the session key goes
      and, while the token has not expired, its id is revoked until then. */
  function LoggedOut(entries: map<string, CacheValue>, c: Claims, sec: int): map<string, CacheValue> {
    var e := entries - {RefreshKey(c.userId, c.jti)};
    if c.exp - sec > 0 then e[RevokedKey(c.jti) := TokenValue("revoked", c.exp - sec)] else e
  }

  /** logout: no token (or an empty one) logs out without change; a token
      that does not verify is refused; a verified token without an id
      changes nothing; otherwise the session is dropped and the token id
      revoked. */
  method Logout(cache: Redis, token: Option<string>, decode: string -> Option<Claims>, now: int)
    returns (r: Result<string>)
    modifies cache`entries
    ensures token.None? || token.value == "" ==> r == Ok(LogoutDone) && cache.entries == old(cache.entries)
    ensures token.Some? && token.value != "" && Verified(token.value, decode, now / 1000).None? ==>
      r == Err(InvalidRefresh) && cache.entries == old(cache.entries)
    ensures token.Some? && token.value != "" && Verified(token.value, decode, now / 1000).Some? ==>
      var c := Verified(token.value, decode, now / 1000).value;
      && r == Ok(LogoutDone)
      && cache.entries == if c.jti == "" then old(cache.entries) else LoggedOut(old(cache.entries), c, now / 1000)
  {
    var sec := now / 1000;
    if token.Some? && token.value != "" {
      var claims := Verified(token.value, decode, sec);
      if claims.None? {
        return Err(InvalidRefresh);
      }
      var c := claims.value;
      if c.jti != "" {
        cache.entries := cache.entries - {RefreshKey(c.userId, c.jti)};
        var ttl := c.exp - sec;
        if ttl > 0 {
          cache.entries := cache.entries[RevokedKey(c.jti) := TokenValue("revoked", ttl)];
        }
      }
    }
    r := Ok(LogoutDone);
  }

  /** A verified token is always revoked by logout, for the seconds it
      had left. */
  lemma LogoutRevokesUntilExpiry(entries: map<string, CacheValue>, token: string,
                                 decode: string -> Option<Claims>, sec: int)
    requires Verified(token, decode, sec).Some?
    ensures var c := Verified(token, decode, sec).value;
      && RevokedKey(c.jti) in LoggedOut(entries, c, sec)
      && LoggedOut(entries, c, sec)[RevokedKey(c.jti)] == TokenValue("revoked", c.exp - sec)
      && RefreshKey(c.userId, c.jti) !in LoggedOut(entries, c, sec)
  {
    var c := Verified(token, decode, sec).value;
    KeysApart(c.userId, c.jti, c.jti);
  }

  // ------------------------------------------------------------ refresh

  /** refreshToken: the token must be present, verify, carry an id that is
      not revoked and name a user who still exists; the answer is a new
      access token for that user. */
  function Refresh(entries: map<string, CacheValue>, users: seq<User>, token: string,
                   decode: string -> Option<Claims>, now: int, signer: Signer): Result<string> {
    if token == "" then Err("Refresh token is required")
    else if Verified(token, decode, now / 1000).None? then Err(JwtRefused)
    else
      var c := Verified(token, decode, now / 1000).value;
      if c.jti == "" then Err(InvalidRefresh)
      else if RevokedKey(c.jti) in entries then Err("Refresh token has been revoked")
      else if UserWithId(users, c.userId).None? then Err("User not found")
      else Ok(signer.access(PayloadOf(UserWithId(users, c.userId).value)))
  }

  /** A refresh succeeds exactly for a live, unrevoked token with an id
      whose user exists, and then answers with that user's access token. */
  lemma RefreshMeaning(entries: map<string, CacheValue>, users: seq<User>, token: string,
                       decode: string -> Option<Claims>, now: int, signer: Signer)
    ensures Refresh(entries, users, token, decode, now, signer).Ok? <==>
      && token != ""
      && decode(token).Some? && now / 1000 < decode(token).value.exp
      && decode(token).value.jti != ""
      && RevokedKey(decode(token).value.jti) !in entries
      && exists i :: 0 <= i < |users| && users[i].id == decode(token).value.userId
    ensures Refresh(entries, users, token, decode, now, signer).Ok? ==>
      exists u :: u in users && u.id == decode(token).value.userId &&
        Refresh(entries, users, token, decode, now, signer).value == signer.access(PayloadOf(u))
  {
  }

  /** After logout, the same refresh token is refused at any later time:
      revoked while it lives, refused by jsonwebtoken after. */
  lemma LogoutRevokes(entries: map<string, CacheValue>, users: seq<User>, token: string,
                      decode: string -> Option<Claims>, now: int, later: int, signer: Signer)
    requires token != "" && Verified(token, decode, now / 1000).Some?
    requires Verified(token, decode, now / 1000).value.jti != ""
    ensures var c := Verified(token, decode, now / 1000).value;
      Refresh(LoggedOut(entries, c, now / 1000), users, token, decode, later, signer).Err?
  {
    LogoutRevokesUntilExpiry(entries, token, decode, now / 1000);
  }

  /** Refreshing never consults the recorded sessions: dropping one changes
      no answer. */
  lemma RefreshIgnoresSessions(entries: map<string, CacheValue>, users: seq<User>, token: string,
                               decode: string -> Option<Claims>, now: int, signer: Signer,
                               userId: Id, jti: string)
    ensures Refresh(entries - {RefreshKey(userId, jti)}, users, token, decode, now, signer) ==
            Refresh(entries, users, token, decode, now, signer)
  {
    if Verified(token, decode, now / 1000).Some? {
      KeysApart(userId, jti, Verified(token, decode, now / 1000).value.jti);
    }
  }

  // --------------------------------------------- verifyAccount, resendOTP

  /** verifyAccount: the code is checked as verfiyOTP does; the verified
      user gets a session. */
  method VerifyAccount(db: Database, cache: Redis, token: string, code: string, now: int,
                       s: Otps.Secret, signer: Signer, jti: string)
    returns (r: Result<Session>)
    modifies db`otps, db`users, cache`entries
    ensures var c := Otps.CheckCode(OtpWithToken(old(db.otps), token), code, now, s, "Invalid token");
      && (c.Err? ==> r == c.PropagateFailure() && db.users == old(db.users) && cache.entries == old(cache.entries))
      && (c.Err? && c.msg != "OTP has expired" ==> db.otps == old(db.otps))
      && (c.Err? && c.msg == "OTP has expired" ==> db.otps == Otps.WithoutToken(old(db.otps), token))
      && (c.Ok? ==>
            && db.otps == Otps.WithoutToken(old(db.otps), token)
            && db.users == Otps.MarkedVerified(old(db.users), c.value.userId)
            && (UserWithId(old(db.users), c.value.userId).None? ==>
                  r == Err("User not found") && cache.entries == old(cache.entries))
            && (UserWithId(old(db.users), c.value.userId).Some? ==>
                  && r.Ok? && r.value.user.id == c.value.userId && r.value.user.emailVerified
                  && r.value == Session(r.value.user, signer.access(PayloadOf(r.value.user)), signer.refresh(PayloadOf(r.value.user), jti))
                  && cache.entries == SessionStored(old(cache.entries), c.value.userId, jti)))
  {
    var user := Otps.VerifyOtp(db, token, code, now, s);
    if user.Err? {
      return user.PropagateFailure();
    }
    var session := IssueTokens(cache, user.value, signer, jti);
    r := Ok(session);
  }

  /** resendOTP: an unknown e-mail is refused; otherwise the user's codes are
      deleted and a fresh one is stored and mailed. */
  method ResendOtp(db: Database, mailer: Mailer, email: string, rowId: Id, otpToken: string,
                   draws: seq<real>, now: int, s: Otps.Secret)
    returns (r: Result<Otps.Issued>)
    requires Otps.Draws(draws) && |draws| >= 6
    modifies db`otps, mailer`sent
    ensures UserWithEmail(db.users, email).None? ==>
      r == Err("User not found") && db.otps == old(db.otps) && mailer.sent == old(mailer.sent)
    ensures UserWithEmail(db.users, email).Some? ==>
      var userId := UserWithEmail(db.users, email).value.id;
      && r == Ok(Otps.Issued(otpToken, now + Otps.Lifetime))
      && db.otps == Otps.Replaced(old(db.otps), userId,
           Otps.IssuedRow(rowId, otpToken, Otps.CodeOf(draws[..6]), userId, now, s))
      && mailer.sent == old(mailer.sent) + [Mail(email, Otps.Subject, Otps.Template, Otps.CodeOf(draws[..6]))]
  {
    var user := UserWithEmail(db.users, email);
    if user.None? {
      return Err("User not found");
    }
    ghost var before := db.otps;
    db.otps := Otps.OthersOnly(db.otps, user.value.id);
    var issued := Otps.SendVerificationEmail(db, mailer, email, user.value.id, rowId, otpToken, draws, now, s);
    Otps.ClearThenReplace(before, user.value.id,
      Otps.IssuedRow(rowId, otpToken, Otps.CodeOf(draws[..6]), user.value.id, now, s));
    r := Ok(issued);
  }
}

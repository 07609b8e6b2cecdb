/** The user service (services/user.service.ts): changing a password, a
    photo or the personal information, reading a profile, the admin's
    paged user list, deleting a user and banning or unbanning one.
    Password checking and hashing (bcrypt) are parameters. */
module Users {
  import opened Wrappers
  import opened Text
  import opened Schema
  import opened Rows
  import opened Tables
  import Orders

  // ------------------------------------------------------------ row edits

  /** `update users set ... where id = id`, the change given by `f`. */
  function Edited(users: seq<User>, id: Id, f: User -> User): seq<User> {
    Update(users, (u: User) => u.id == id, f)
  }

  function WithPassword(users: seq<User>, id: Id, hash: string): seq<User> {
    Edited(users, id, (u: User) => u.(password := hash))
  }

  function WithPhoto(users: seq<User>, id: Id, photoUrl: string): seq<User> {
    Edited(users, id, (u: User) => u.(photoUrl := photoUrl))
  }

  function WithLockout(users: seq<User>, id: Id, banned: bool): seq<User> {
    Edited(users, id, (u: User) => u.(lockoutEnd := banned))
  }

  /** After an edit that keeps ids, looking up the edited user finds the
      edited row and looking up anyone else finds what it found before. */
  lemma LookupAfterEdit(users: seq<User>, id: Id, f: User -> User, other: Id)
    requires forall u :: f(u).id == u.id
    ensures other == id ==>
      UserWithId(Edited(users, id, f), other) ==
      (if UserWithId(users, id).Some? then Some(f(UserWithId(users, id).value)) else None)
    ensures other != id ==> UserWithId(Edited(users, id, f), other) == UserWithId(users, other)
  {
    FirstUpdate(users, (u: User) => u.id == other, (u: User) => u.id == id, f);
  }

  // ------------------------------------------------------ changePassword

  /** A changed password is the one the user now has; nobody else's row
      changes. */
  lemma PasswordTakesEffect(users: seq<User>, id: Id, hash: string, other: Id)
    requires UserWithId(users, id).Some?
    ensures UserWithId(WithPassword(users, id, hash), id) == Some(UserWithId(users, id).value.(password := hash))
    ensures other != id ==> UserWithId(WithPassword(users, id, hash), other) == UserWithId(users, other)
  {
    LookupAfterEdit(users, id, (u: User) => u.(password := hash), id);
    LookupAfterEdit(users, id, (u: User) => u.(password := hash), other);
  }

  /** changePassword: the user must exist and the old password must match
      the stored hash; then the stored hash becomes `newHash`, the hash of
      the new password. */
  method ChangePassword(db: Database, userId: Id, oldPassword: string, newHash: string,
                        passwordMatches: (string, string) -> bool) returns (r: Result<string>)
    modifies db`users
    ensures UserWithId(old(db.users), userId).None? ==>
      r == Err("User not found") && db.users == old(db.users)
    ensures UserWithId(old(db.users), userId).Some? &&
            !passwordMatches(oldPassword, UserWithId(old(db.users), userId).value.password) ==>
      r == Err("Old password is incorrect") && db.users == old(db.users)
    ensures UserWithId(old(db.users), userId).Some? &&
            passwordMatches(oldPassword, UserWithId(old(db.users), userId).value.password) ==>
      r == Ok("Password updated successfully") && db.users == WithPassword(old(db.users), userId, newHash)
  {
    var user := UserWithId(db.users, userId);
    if user.None? {
      return Err("User not found");
    }
    if !passwordMatches(oldPassword, user.value.password) {
      return Err("Old password is incorrect");
    }
    db.users := WithPassword(db.users, userId, newHash);
    r := Ok("Password updated successfully");
  }

  // ------------------------------------------------ changePhotoUrl, profile

  /** What getUserById returns: the row without its verification flag,
      role, password and creation time. */
  datatype Profile = Profile(
    id: Id, fullName: string, email: string, dateOfBirth: string, gender: string,
    photoUrl: string, lockoutEnd: bool)

  function ProfileOf(u: User): Profile {
    Profile(u.id, u.fullName, u.email, u.dateOfBirth, u.gender, u.photoUrl, u.lockoutEnd)
  }

  /** getUserById: the profile of the user with that id. */
  function GetUserById(users: seq<User>, id: Id): (r: Result<Profile>)
    ensures r.Err? <==> forall i :: 0 <= i < |users| ==> users[i].id != id
    ensures r.Err? ==> r.msg == "User not found"
    ensures r.Ok? ==>
      && r.value.id == id
      && exists u :: u in users && u.id == id && r.value.photoUrl == u.photoUrl &&
                     r.value.email == u.email && r.value.fullName == u.fullName
  {
    match UserWithId(users, id)
    case None => Err("User not found")
    case Some(u) => Ok(ProfileOf(u))
  }

  /** changePhotoUrl: the user must exist; the new URL is stored and
      returned. */
  method ChangePhotoUrl(db: Database, userId: Id, photoUrl: string) returns (r: Result<string>)
    modifies db`users
    ensures UserWithId(old(db.users), userId).None? ==>
      r == Err("User not found") && db.users == old(db.users)
    ensures UserWithId(old(db.users), userId).Some? ==>
      r == Ok(photoUrl) && db.users == WithPhoto(old(db.users), userId, photoUrl)
  {
    var user := UserWithId(db.users, userId);
    if user.None? {
      return Err("User not found");
    }
    db.users := WithPhoto(db.users, userId, photoUrl);
    r := Ok(photoUrl);
  }

  /** After a photo change the profile shows the new photo and is
      otherwise the same; every other profile is unchanged. */
  lemma ProfileAfterPhoto(users: seq<User>, id: Id, photoUrl: string, other: Id)
    requires GetUserById(users, id).Ok?
    ensures GetUserById(WithPhoto(users, id, photoUrl), id) ==
      Ok(GetUserById(users, id).value.(photoUrl := photoUrl))
    ensures other != id ==> GetUserById(WithPhoto(users, id, photoUrl), other) == GetUserById(users, other)
  {
    LookupAfterEdit(users, id, (u: User) => u.(photoUrl := photoUrl), id);
    LookupAfterEdit(users, id, (u: User) => u.(photoUrl := photoUrl), other);
  }

  // -------------------------------------------------- changeInformation

  /** The body of changeInformation, which no schema checks: any column of
      the users table may be present. */
  datatype UserPatch = UserPatch(
    fullName: Option<string>, email: Option<string>, dateOfBirth: Option<string>,
    gender: Option<string>, role: Option<UserRole>, photoUrl: Option<string>,
    password: Option<string>, emailVerified: Option<bool>, lockoutEnd: Option<bool>)

  /** `.set(request)` as written: every column present in the body is
      written. */
  function PatchAll(u: User, p: UserPatch): (v: User)
    ensures v.id == u.id && v.createdAt == u.createdAt
  {
    u.(fullName := p.fullName.GetOr(u.fullName), email := p.email.GetOr(u.email),
       dateOfBirth := p.dateOfBirth.GetOr(u.dateOfBirth), gender := p.gender.GetOr(u.gender),
       role := p.role.GetOr(u.role), photoUrl := p.photoUrl.GetOr(u.photoUrl),
       password := p.password.GetOr(u.password), emailVerified := p.emailVerified.GetOr(u.emailVerified),
       lockoutEnd := p.lockoutEnd.GetOr(u.lockoutEnd))
  }

  /** As written, a customer who adds `role` to the body makes themself an
      administrator, and one who adds `lockoutEnd` lifts their own ban. */
  lemma PatchAllEscalates(u: User, p: UserPatch)
    requires u.role == Customer && u.lockoutEnd
    requires p == UserPatch(None, None, None, None, Some(Admin), None, None, None, Some(false))
    ensures PatchAll(u, p).role == Admin && !PatchAll(u, p).lockoutEnd
    ensures PatchAll(u, p) != PatchInformation(u, p)
  {
  }

  /** The change the request declares: the name, the gender and the date
      of birth, and nothing else. */
  function PatchInformation(u: User, p: UserPatch): (v: User)
    ensures v.fullName == p.fullName.GetOr(u.fullName)
    ensures v.gender == p.gender.GetOr(u.gender)
    ensures v.dateOfBirth == p.dateOfBirth.GetOr(u.dateOfBirth)
    ensures v.(fullName := u.fullName, gender := u.gender, dateOfBirth := u.dateOfBirth) == u
  {
    u.(fullName := p.fullName.GetOr(u.fullName), gender := p.gender.GetOr(u.gender),
       dateOfBirth := p.dateOfBirth.GetOr(u.dateOfBirth))
  }

  /** With the declared fields only, no body changes a user's role,
      e-mail, password, photo, verification or ban, and a body with the
      three declared fields only is applied exactly as written. */
  lemma PatchInformationKeepsPrivileges(u: User, p: UserPatch)
    ensures var v := PatchInformation(u, p);
      && v.role == u.role && v.email == u.email && v.password == u.password
      && v.photoUrl == u.photoUrl && v.emailVerified == u.emailVerified && v.lockoutEnd == u.lockoutEnd
    ensures (&& p.email.None? && p.role.None? && p.photoUrl.None? && p.password.None?
             && p.emailVerified.None? && p.lockoutEnd.None?) ==> PatchInformation(u, p) == PatchAll(u, p)
  {
  }

  /** The body names no column of the users table at all. */
  predicate NoColumns(p: UserPatch) {
    && p.fullName.None? && p.email.None? && p.dateOfBirth.None? && p.gender.None?
    && p.role.None? && p.photoUrl.None? && p.password.None? && p.emailVerified.None?
    && p.lockoutEnd.None?
  }

  /** changeInformation as written: the user must exist; a body that names
      no column is refused by the query builder ("No values to set");
      otherwise every column the body names is written and the updated
      row is returned, password hash included. */
  method ChangeInformation(db: Database, userId: Id, p: UserPatch) returns (r: Result<User>)
    modifies db`users
    ensures UserWithId(old(db.users), userId).None? ==>
      r == Err("User not found") && db.users == old(db.users)
    ensures UserWithId(old(db.users), userId).Some? && NoColumns(p) ==>
      r == Err("No values to set") && db.users == old(db.users)
    ensures UserWithId(old(db.users), userId).Some? && !NoColumns(p) ==>
      && db.users == Edited(old(db.users), userId, (u: User) => PatchAll(u, p))
      && r == Ok(PatchAll(UserWithId(old(db.users), userId).value, p))
      && UserWithId(db.users, userId) == Some(r.value)
  {
    var user := UserWithId(db.users, userId);
    if user.None? {
      return Err("User not found");
    }
    if NoColumns(p) {
      return Err("No values to set");
    }
    var f := (u: User) => PatchAll(u, p);
    LookupAfterEdit(db.users, userId, f, userId);
    db.users := Edited(db.users, userId, f);
    r := Ok(PatchAll(user.value, p));
  }

  // ------------------------------------------------------ ban and unban

  /** Banning sets the lockout flag, unbanning clears it, and nothing but
      the flag changes; every other user is found as before. */
  lemma LockoutTakesEffect(users: seq<User>, id: Id, banned: bool, other: Id)
    requires UserWithId(users, id).Some?
    ensures UserWithId(WithLockout(users, id, banned), id) == Some(UserWithId(users, id).value.(lockoutEnd := banned))
    ensures other != id ==> UserWithId(WithLockout(users, id, banned), other) == UserWithId(users, other)
  {
    LookupAfterEdit(users, id, (u: User) => u.(lockoutEnd := banned), id);
    LookupAfterEdit(users, id, (u: User) => u.(lockoutEnd := banned), other);
  }

  /** Of a ban followed by an unban, or the reverse, the last one wins. */
  lemma LockoutLastWins(users: seq<User>, id: Id, banned: bool, again: bool)
    ensures WithLockout(WithLockout(users, id, banned), id, again) == WithLockout(users, id, again)
  {
    var once := WithLockout(users, id, banned);
    var twice := WithLockout(once, id, again);
    var direct := WithLockout(users, id, again);
    forall i | 0 <= i < |users| ensures twice[i] == direct[i] {
      assert once[i].id == users[i].id;
    }
  }

  /** banUser (`banned`) and unbanUser (not `banned`): the user must
      exist; then the lockout flag is set to `banned`. */
  method SetBanned(db: Database, id: Id, banned: bool) returns (r: Result<string>)
    modifies db`users
    ensures UserWithId(old(db.users), id).None? ==>
      r == Err("User not found") && db.users == old(db.users)
    ensures UserWithId(old(db.users), id).Some? ==>
      r == Ok(if banned then "User banned successfully" else "User unbanned successfully") &&
      db.users == WithLockout(old(db.users), id, banned)
  {
    var user := UserWithId(db.users, id);
    if user.None? {
      return Err("User not found");
    }
    db.users := WithLockout(db.users, id, banned);
    r := Ok(if banned then "User banned successfully" else "User unbanned successfully");
  }

  // ---------------------------------------------------------- deleteUser

  /** Rows that keep a user from being deleted: addresses and OTP rows
      reference users with no delete rule, and payments ask for "set null"
      on a user column that cannot be null. */
  predicate StillReferenced(addresses: seq<Address>, otps: seq<OtpRow>, payments: seq<Payment>, id: Id) {
    || Exists(addresses, (a: Address) => a.userId == id)
    || Exists(otps, (o: OtpRow) => o.userId == id)
    || Exists(payments, (p: Payment) => p.userId == id)
  }

  function WithoutUser(users: seq<User>, id: Id): seq<User> {
    Keep(users, (u: User) => u.id != id)
  }

  /** The user's carts go with the user. */
  function CartsAfterDelete(carts: seq<Cart>, id: Id): seq<Cart> {
    Keep(carts, (c: Cart) => c.userId != id)
  }

  function CartIdsOf(carts: seq<Cart>, id: Id): set<Id> {
    set c | c in carts && c.userId == id :: c.id
  }

  /** The items of deleted carts go with them. */
  function ItemsAfterDelete(items: seq<CartItem>, cartIds: set<Id>): seq<CartItem> {
    Keep(items, (it: CartItem) => it.shoppingCartId !in cartIds)
  }

  function ItemIdsIn(items: seq<CartItem>, cartIds: set<Id>): set<Id> {
    set it | it in items && it.shoppingCartId in cartIds :: it.id
  }

  /** The options of deleted items go with them. */
  function OptionsAfterDelete(options: seq<CartItemOption>, itemIds: set<Id>): seq<CartItemOption> {
    Keep(options, (o: CartItemOption) => o.shoppingCartItemId !in itemIds)
  }

  /** The user's ratings go with the user. */
  function RatingsAfterDelete(ratings: seq<Rating>, id: Id): seq<Rating> {
    Keep(ratings, (r: Rating) => r.userId != id)
  }

  /** A deletion leaves no row that depends on the deleted user, and every
      other user is found as before. */
  lemma DeletionLeavesNoOrphans(users: seq<User>, carts: seq<Cart>, items: seq<CartItem>,
                                options: seq<CartItemOption>, ratings: seq<Rating>, id: Id, other: Id)
    ensures UserWithId(WithoutUser(users, id), id).None?
    ensures other != id ==> UserWithId(WithoutUser(users, id), other) == UserWithId(users, other)
    ensures forall c :: c in CartsAfterDelete(carts, id) ==> c.userId != id
    ensures var cartIds := CartIdsOf(carts, id);
      forall it :: it in ItemsAfterDelete(items, cartIds) ==> it in items && it.shoppingCartId !in cartIds
    ensures var itemIds := ItemIdsIn(items, CartIdsOf(carts, id));
      forall o :: o in OptionsAfterDelete(options, itemIds) ==> o in options && o.shoppingCartItemId !in itemIds
    ensures forall r :: r in RatingsAfterDelete(ratings, id) ==> r.userId != id
  {
    if other != id {
      FirstKeep(users, (u: User) => u.id == other, (u: User) => u.id != id);
    }
  }

  /** deleteUser: the user must exist and no address, OTP row or payment
      may still refer to it (the database refuses the delete otherwise);
      then the user goes, and with it its carts, their items and options,
      and its ratings. */
  method DeleteUser(db: Database, userId: Id) returns (r: Result<string>)
    modifies db`users, db`carts, db`cartItems, db`cartItemOptions, db`ratings
    ensures UserWithId(old(db.users), userId).None? ==>
      r == Err("User not found") && unchanged(db)
    ensures UserWithId(old(db.users), userId).Some? &&
            StillReferenced(db.addresses, db.otps, db.payments, userId) ==>
      r == Err(DeleteRefused) && unchanged(db)
    ensures UserWithId(old(db.users), userId).Some? &&
            !StillReferenced(db.addresses, db.otps, db.payments, userId) ==>
      && r == Ok("User deleted successfully")
      && db.users == WithoutUser(old(db.users), userId)
      && db.carts == CartsAfterDelete(old(db.carts), userId)
      && db.cartItems == ItemsAfterDelete(old(db.cartItems), CartIdsOf(old(db.carts), userId))
      && db.cartItemOptions ==
         OptionsAfterDelete(old(db.cartItemOptions), ItemIdsIn(old(db.cartItems), CartIdsOf(old(db.carts), userId)))
      && db.ratings == RatingsAfterDelete(old(db.ratings), userId)
  {
    var user := UserWithId(db.users, userId);
    if user.None? {
      return Err("User not found");
    }
    if StillReferenced(db.addresses, db.otps, db.payments, userId) {
      return Err(DeleteRefused);
    }
    DeleteUserRows(db, userId);
    r := Ok("User deleted successfully");
  }

  /** `delete from users where id = userId` with the foreign keys' cascades. */
  method DeleteUserRows(db: Database, userId: Id)
    modifies db`users, db`carts, db`cartItems, db`cartItemOptions, db`ratings
    ensures db.users == WithoutUser(old(db.users), userId)
    ensures db.carts == CartsAfterDelete(old(db.carts), userId)
    ensures db.cartItems == ItemsAfterDelete(old(db.cartItems), CartIdsOf(old(db.carts), userId))
    ensures db.cartItemOptions ==
      OptionsAfterDelete(old(db.cartItemOptions), ItemIdsIn(old(db.cartItems), CartIdsOf(old(db.carts), userId)))
    ensures db.ratings == RatingsAfterDelete(old(db.ratings), userId)
  {
    var cartIds := CartIdsOf(db.carts, userId);
    var itemIds := ItemIdsIn(db.cartItems, cartIds);
    db.cartItemOptions := OptionsAfterDelete(db.cartItemOptions, itemIds);
    db.cartItems := ItemsAfterDelete(db.cartItems, cartIds);
    db.carts := CartsAfterDelete(db.carts, userId);
    db.ratings := RatingsAfterDelete(db.ratings, userId);
    db.users := WithoutUser(db.users, userId);
  }

  // -------------------------------------------------------- getAllUsers

  /** A flag filter as it arrives from the query string: absent, one value
      or a list of values. */
  datatype FlagArg = NoFlag | OneFlag(flag: bool) | FlagList(flags: seq<bool>)

  /** A single value is wrapped into a list. */
  function FlagValues(a: FlagArg): seq<bool> {
    match a
    case NoFlag => []
    case OneFlag(b) => [b]
    case FlagList(bs) => bs
  }

  datatype UserFilter = UserFilter(
    search: Option<string>, emailConfirmed: FlagArg, isBanned: FlagArg,
    sort: Option<string>, page: Option<int>, limit: Option<int>)

  datatype UserCondition =
    | NotAdmin
    | NameOrEmailLike(pattern: string)
    | EmailVerifiedIn(values: seq<bool>)
    | BannedIn(values: seq<bool>)

  datatype UserColumn = FullName | Email | CreatedAt

  datatype UserQuery = UserQuery(
    conditions: seq<UserCondition>, orderBy: (UserColumn, Orders.Direction), paging: Orders.Paging)

  /** The sort keys the list accepts; anything else means newest first. */
  function UserSort(sort: Option<string>): (UserColumn, Orders.Direction) {
    if sort == Some("name_asc") then (FullName, Orders.Asc)
    else if sort == Some("name_desc") then (FullName, Orders.Desc)
    else if sort == Some("email_asc") then (Email, Orders.Asc)
    else if sort == Some("email_desc") then (Email, Orders.Desc)
    else if sort == Some("createdAt_asc") then (CreatedAt, Orders.Asc)
    else (CreatedAt, Orders.Desc)
  }

  /** The query getAllUsers runs: admins are never listed, a search term
      is trimmed, escaped and looked for in the name or the e-mail, and a
      non-empty flag list restricts the flag. Page (default 0) and limit
      (default 10) are checked after the defaults are applied. */
  function UserQueryOf(f: UserFilter): Result<UserQuery> {
    var search := if Orders.UsableKeyword(f.search) then
      [NameOrEmailLike(ContainsPattern(Escape(Trim(f.search.value), LikeSpecials)))] else [];
    var verified := if FlagValues(f.emailConfirmed) != [] then [EmailVerifiedIn(FlagValues(f.emailConfirmed))] else [];
    var banned := if FlagValues(f.isBanned) != [] then [BannedIn(FlagValues(f.isBanned))] else [];
    var paging := Orders.PagingOf(f.page, f.limit, 10);
    if paging.page < 0 then Err("Page must be non-negative")
    else if paging.limit <= 0 || paging.limit > 100 then Err("Limit must be between 1 and 100")
    else Ok(UserQuery([NotAdmin] + search + verified + banned, UserSort(f.sort), paging))
  }

  predicate Holds(c: UserCondition, u: User) {
    match c
    case NotAdmin => u.role != Admin
    case NameOrEmailLike(p) => TokensMatch(LikeTokens(p), u.fullName) || TokensMatch(LikeTokens(p), u.email)
    case EmailVerifiedIn(vs) => u.emailVerified in vs
    case BannedIn(vs) => u.lockoutEnd in vs
  }

  predicate Matches(q: UserQuery, u: User) {
    forall c :: c in q.conditions ==> Holds(c, u)
  }

  /** What a flag filter admits, read from the request directly. */
  predicate FlagAdmits(a: FlagArg, b: bool) {
    match a
    case NoFlag => true
    case OneFlag(x) => b == x
    case FlagList(xs) => xs == [] || b in xs
  }

  /** What the user list admits, stated without patterns: no admin, the
      trimmed search term inside the name or the e-mail, and the flags as
      requested. */
  predicate Wanted(f: UserFilter, u: User) {
    && u.role != Admin
    && (Orders.UsableKeyword(f.search) ==>
          Contains(u.fullName, Trim(f.search.value)) || Contains(u.email, Trim(f.search.value)))
    && FlagAdmits(f.emailConfirmed, u.emailVerified)
    && FlagAdmits(f.isBanned, u.lockoutEnd)
  }

  lemma SearchMeaning(k: string, u: User)
    ensures Holds(NameOrEmailLike(ContainsPattern(Escape(k, LikeSpecials))), u) <==>
      Contains(u.fullName, k) || Contains(u.email, k)
  {
    ContainsPatternIsLiteral(k);
    assert [AnyRun] + Literal(k) + [AnyRun] == LikeTokens(ContainsPattern(Escape(k, LikeSpecials)));
    ContainsMatch(k, u.fullName);
    ContainsMatch(k, u.email);
  }

  /** The query's conditions admit exactly the users the request asks for. */
  lemma UserFilterMeaning(f: UserFilter, u: User)
    requires UserQueryOf(f).Ok?
    ensures Matches(UserQueryOf(f).value, u) <==> Wanted(f, u)
  {
    var q := UserQueryOf(f).value;
    assert NotAdmin in q.conditions;
    if Orders.UsableKeyword(f.search) {
      var k := Trim(f.search.value);
      SearchMeaning(k, u);
      assert NameOrEmailLike(ContainsPattern(Escape(k, LikeSpecials))) in q.conditions;
    }
    if FlagValues(f.emailConfirmed) != [] {
      assert EmailVerifiedIn(FlagValues(f.emailConfirmed)) in q.conditions;
    }
    if FlagValues(f.isBanned) != [] {
      assert BannedIn(FlagValues(f.isBanned)) in q.conditions;
    }
  }

  /** A request fails exactly when its page (after the default) is
      negative or its limit (after the default) is outside 1..100, the
      page being checked first. */
  lemma UserQueryErrors(f: UserFilter)
    ensures var page := Orders.OrDefault(f.page, 0);
            var limit := Orders.OrDefault(f.limit, 10);
      && (page < 0 ==> UserQueryOf(f) == Err("Page must be non-negative"))
      && (page >= 0 && (limit <= 0 || limit > 100) ==> UserQueryOf(f) == Err("Limit must be between 1 and 100"))
      && (page >= 0 && 0 < limit <= 100 ==>
            && UserQueryOf(f).Ok?
            && UserQueryOf(f).value.paging == Orders.Paging(page, limit, page * limit))
  {
  }

  /** The row order of an ORDER BY on one column. */
  function UserOrder(key: (UserColumn, Orders.Direction)): (User, User) -> bool {
    match key
    case (FullName, Asc) => (a: User, b: User) => LexLe(a.fullName, b.fullName)
    case (FullName, Desc) => (a: User, b: User) => LexLe(b.fullName, a.fullName)
    case (Email, Asc) => (a: User, b: User) => LexLe(a.email, b.email)
    case (Email, Desc) => (a: User, b: User) => LexLe(b.email, a.email)
    case (CreatedAt, Asc) => (a: User, b: User) => a.createdAt <= b.createdAt
    case (CreatedAt, Desc) => (a: User, b: User) => a.createdAt >= b.createdAt
  }

  lemma UserOrderTotal(key: (UserColumn, Orders.Direction))
    ensures TotalPreorder(UserOrder(key))
  {
    var le := UserOrder(key);
    forall a: User, b: User ensures le(a, b) || le(b, a) {
      LexLeTotal(a.fullName, b.fullName);
      LexLeTotal(a.email, b.email);
    }
    forall a: User, b: User, c: User | le(a, b) && le(b, c) ensures le(a, c) {
      match key
      case (FullName, Asc) => LexLeTransitive(a.fullName, b.fullName, c.fullName);
      case (FullName, Desc) => LexLeTransitive(c.fullName, b.fullName, a.fullName);
      case (Email, Asc) => LexLeTransitive(a.email, b.email, c.email);
      case (Email, Desc) => LexLeTransitive(c.email, b.email, a.email);
      case (CreatedAt, _) =>
    }
  }

  /** A row of the list: the users row without its password. */
  datatype ListedUser = ListedUser(
    id: Id, fullName: string, email: string, dateOfBirth: string, gender: string,
    role: UserRole, photoUrl: string, createdAt: int, emailVerified: bool, lockoutEnd: bool)

  function Listed(u: User): ListedUser {
    ListedUser(u.id, u.fullName, u.email, u.dateOfBirth, u.gender, u.role, u.photoUrl,
               u.createdAt, u.emailVerified, u.lockoutEnd)
  }

  datatype UserPage = UserPage(users: seq<ListedUser>, totalCount: nat, page: int, limit: int)

  /** The rows of the requested page: the matching users in the requested
      order, from the offset on, at most `limit` of them. */
  function PageRows(users: seq<User>, q: UserQuery): seq<User>
    requires q.paging.offset >= 0 && q.paging.limit >= 0
  {
    Window(SortBy(Keep(users, (u: User) => Matches(q, u)), UserOrder(q.orderBy)), q.paging.offset, q.paging.limit)
  }

  /** getAllUsers: a page of the matching users without their passwords,
      and the number of all matching users. */
  function GetAllUsers(users: seq<User>, f: UserFilter): Result<UserPage> {
    match UserQueryOf(f)
    case Err(e) => Err(e)
    case Ok(q) =>
      var rows := PageRows(users, q);
      Ok(UserPage(seq(|rows|, i requires 0 <= i < |rows| => Listed(rows[i])),
                  CountWhere(users, (u: User) => Matches(q, u)), q.paging.page, q.paging.limit))
  }

  /** The rows of a page are users the request asks for, in the requested
      order, at most `limit` (so at most 100) of them. */
  lemma PageRowsShape(users: seq<User>, f: UserFilter)
    requires UserQueryOf(f).Ok?
    ensures var q := UserQueryOf(f).value;
            var rows := PageRows(users, q);
      && |rows| <= q.paging.limit <= 100
      && (forall u :: u in rows ==> u in users && Wanted(f, u))
      && SortedBy(rows, UserOrder(q.orderBy))
  {
    var q := UserQueryOf(f).value;
    var m := (u: User) => Matches(q, u);
    var le := UserOrder(q.orderBy);
    var matching := Keep(users, m);
    var sorted := SortBy(matching, le);
    UserOrderTotal(q.orderBy);
    SortBySorted(matching, le);
    forall u | u in PageRows(users, q) ensures u in users && Wanted(f, u) {
      assert u in multiset(sorted);
      UserFilterMeaning(f, u);
    }
    WindowSorted(sorted, le, q.paging.offset, q.paging.limit);
  }

  /** The page lists the page rows without their passwords, never an
      admin, and counts every user the request asks for. */
  lemma AllUsersShape(users: seq<User>, f: UserFilter)
    requires GetAllUsers(users, f).Ok?
    ensures var q := UserQueryOf(f).value;
            var p := GetAllUsers(users, f).value;
      && p.users == seq(|PageRows(users, q)|, i requires 0 <= i < |PageRows(users, q)| => Listed(PageRows(users, q)[i]))
      && (forall i :: 0 <= i < |p.users| ==> p.users[i].role != Admin)
      && p.totalCount == |Keep(users, (u: User) => Wanted(f, u))|
  {
    var q := UserQueryOf(f).value;
    PageRowsShape(users, f);
    var rows := PageRows(users, q);
    forall i | 0 <= i < |rows| ensures rows[i].role != Admin {
      assert rows[i] in rows;
    }
    KeepCount(users, (u: User) => Matches(q, u));
    forall u ensures Matches(q, u) == Wanted(f, u) {
      UserFilterMeaning(f, u);
    }
    KeepSame(users, (u: User) => Matches(q, u), (u: User) => Wanted(f, u));
  }
}

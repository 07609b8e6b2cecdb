/** One-time passwords for e-mail verification (services/otp.service.ts):
    drawing a code, storing its hash with a token and a three-minute expiry,
    mailing it, and checking a code against the stored row. bcrypt becomes
    a hash function `hash` given by the caller (one that checks a candidate
    by recomputing it), `Math.random` a sequence of draws in [0, 1), and the
    clock a time `now` in milliseconds. */
module Otps {
  import opened Wrappers
  import opened Text
  import opened Schema
  import opened Rows
  import opened Tables

  /** Three minutes, in milliseconds. */
  const Lifetime := 3 * 60 * 1000

  const Subject := "FoodX - One Time Password"
  const Template := "otp-template"

  /** The secret the code is salted with before hashing, and the hash. */
  datatype Secret = Secret(key: string, hash: string -> string)

  /** What is stored for a code. */
  function Salted(code: string, s: Secret): string {
    s.hash(code + "_" + s.key)
  }

  // ------------------------------------------------------------ generateOTP

  /** The digit `Math.floor(draw * 10)` picks from "0123456789". */
  function DigitOf(draw: real): (c: char)
    requires 0.0 <= draw < 1.0
    ensures IsDigit(c)
  {
    var k := (draw * 10.0).Floor;
    assert 0 <= k < 10;
    DigitChar(k)
  }

  predicate Draws(draws: seq<real>) {
    forall i :: 0 <= i < |draws| ==> 0.0 <= draws[i] < 1.0
  }

  /** The code the draws spell, one digit per draw. */
  function CodeOf(draws: seq<real>): (code: string)
    requires Draws(draws)
    ensures |code| == |draws| && AllDigits(code)
  {
    if draws == [] then "" else CodeOf(draws[..|draws| - 1]) + [DigitOf(draws[|draws| - 1])]
  }

  /** generateOTP: `length` characters, each a decimal digit chosen by one
      draw; a length below 1 gives the empty code. */
  method GenerateOtp(length: int, draws: seq<real>) returns (otp: string)
    requires Draws(draws) && length <= |draws|
    ensures |otp| == if length < 0 then 0 else length
    ensures AllDigits(otp)
    ensures otp == CodeOf(draws[..|otp|])
  {
    otp := "";
    var i := 0;
    while i < length
      invariant 0 <= i <= if length < 0 then 0 else length
      invariant otp == CodeOf(draws[..i])
    {
      assert draws[..i + 1][..i] == draws[..i];
      otp := otp + [DigitOf(draws[i])];
      i := i + 1;
    }
  }

  /** The default code has six digits. */
  lemma DefaultCodeSixDigits(draws: seq<real>)
    requires Draws(draws) && |draws| >= 6
    ensures |CodeOf(draws[..6])| == 6 && AllDigits(CodeOf(draws[..6]))
  {
  }

  // --------------------------------------------------------- checking a code

  /** Checking a code against the row its token finds: a missing row gives
      `missing`, a wrong code "Invalid OTP", and an expired row "OTP has
      expired"; the code is checked before the expiry. */
  function CheckCode(row: Option<OtpRow>, code: string, now: int, s: Secret, missing: string): Result<OtpRow> {
    if row.None? then Err(missing)
    else if Salted(code, s) != row.value.otp then Err("Invalid OTP")
    else if row.value.expiryDate < now then Err("OTP has expired")
    else Ok(row.value)
  }

  /** The row stored when a code is sent at `sentAt`. */
  function IssuedRow(id: Id, token: string, code: string, userId: Id, sentAt: int, s: Secret): (o: OtpRow)
    ensures o.expiryDate == sentAt + Lifetime && o.token == token && o.userId == userId
  {
    OtpRow(id, token, sentAt + Lifetime, Salted(code, s), userId)
  }

  /** The code that was sent passes up to three minutes after sending and
      is expired after that. */
  lemma SentCodePasses(id: Id, token: string, code: string, userId: Id, sentAt: int, now: int, s: Secret, missing: string)
    ensures var row := IssuedRow(id, token, code, userId, sentAt, s);
      && (now <= sentAt + Lifetime ==> CheckCode(Some(row), code, now, s, missing) == Ok(row))
      && (now > sentAt + Lifetime ==> CheckCode(Some(row), code, now, s, missing) == Err("OTP has expired"))
  {
  }

  /** A code whose salted hash differs from the stored one is refused as
      invalid, expired or not: the mismatch is reported first. */
  lemma WrongCodeRefusedFirst(row: OtpRow, code: string, now: int, s: Secret, missing: string)
    requires Salted(code, s) != row.otp
    ensures CheckCode(Some(row), code, now, s, missing) == Err("Invalid OTP")
  {
  }

  /** A check passes only for a row that is there, holds the code's hash
      and has not expired. */
  lemma CheckPassesOnlyIfValid(row: Option<OtpRow>, code: string, now: int, s: Secret, missing: string)
    ensures CheckCode(row, code, now, s, missing).Ok? <==>
      row.Some? && Salted(code, s) == row.value.otp && now <= row.value.expiryDate
  {
  }

  // ------------------------------------------------- sendVerificationEmail

  /** `delete from otp_verify where userId = userId`. */
  function OthersOnly(otps: seq<OtpRow>, userId: Id): seq<OtpRow> {
    Keep(otps, (o: OtpRow) => o.userId != userId)
  }

  /** All rows of the user replaced by one. */
  function Replaced(otps: seq<OtpRow>, userId: Id, row: OtpRow): seq<OtpRow> {
    OthersOnly(otps, userId) + [row]
  }

  /** Deleting the user's rows before a replacement changes nothing. */
  lemma ClearThenReplace(otps: seq<OtpRow>, userId: Id, row: OtpRow)
    ensures Replaced(OthersOnly(otps, userId), userId, row) == Replaced(otps, userId, row)
  {
    KeepTwice(otps, (o: OtpRow) => o.userId != userId);
  }

  /** After the replacement the user has exactly the new row, and every
      row of another user is kept. */
  lemma ReplacedLeavesOne(otps: seq<OtpRow>, userId: Id, row: OtpRow)
    requires row.userId == userId
    ensures Keep(Replaced(otps, userId, row), (o: OtpRow) => o.userId == userId) == [row]
    ensures forall o :: o in otps && o.userId != userId ==> o in Replaced(otps, userId, row)
  {
    var others := OthersOnly(otps, userId);
    KeepAppend(others, [row], (o: OtpRow) => o.userId == userId);
    KeepNone(others, (o: OtpRow) => o.userId == userId);
    assert [row][1..] == [];
  }

  /** What sendVerificationEmail returns. */
  datatype Issued = Issued(token: string, expiryDate: int)

  /** sendVerificationEmail: the user's rows are replaced by one holding
      the hash of a fresh six-digit code and expiring three minutes from
      now, and the code is mailed. */
  method SendVerificationEmail(db: Database, mailer: Mailer, email: string, userId: Id,
                               rowId: Id, token: string, draws: seq<real>, now: int, s: Secret)
    returns (r: Issued)
    requires Draws(draws) && |draws| >= 6
    modifies db`otps, mailer`sent
    ensures r == Issued(token, now + Lifetime)
    ensures db.otps == Replaced(old(db.otps), userId, IssuedRow(rowId, token, CodeOf(draws[..6]), userId, now, s))
    ensures mailer.sent == old(mailer.sent) + [Mail(email, Subject, Template, CodeOf(draws[..6]))]
  {
    db.otps := OthersOnly(db.otps, userId);
    var otp := GenerateOtp(6, draws);
    var expiryDate := now + Lifetime;
    db.otps := db.otps + [OtpRow(rowId, token, expiryDate, Salted(otp, s), userId)];
    mailer.sent := mailer.sent + [Mail(email, Subject, Template, otp)];
    r := Issued(token, expiryDate);
  }

  // -------------------------------------------------------------- verfiyOTP

  function WithoutToken(otps: seq<OtpRow>, token: string): seq<OtpRow> {
    Keep(otps, (o: OtpRow) => o.token != token)
  }

  function MarkedVerified(users: seq<User>, id: Id): seq<User> {
    Update(users, (u: User) => u.id == id, (u: User) => u.(emailVerified := true))
  }

  /** The verified user is found, now verified, exactly when a user had
      that id. */
  lemma VerifiedFound(users: seq<User>, id: Id)
    ensures UserWithId(MarkedVerified(users, id), id).Some? <==> UserWithId(users, id).Some?
    ensures UserWithId(MarkedVerified(users, id), id).Some? ==> UserWithId(MarkedVerified(users, id), id).value.emailVerified
  {
    var m := MarkedVerified(users, id);
    assert forall i :: 0 <= i < |m| ==> m[i].id == users[i].id;
  }

  /** verfiyOTP: the code is checked against the row of the token ("Invalid
      token", "Invalid OTP"); an expired row is deleted before "OTP has
      expired" is raised; otherwise the row is deleted and the user marked
      verified, and "User not found" is raised if no user row has its id. */
  method VerifyOtp(db: Database, token: string, code: string, now: int, s: Secret)
    returns (r: Result<User>)
    modifies db`otps, db`users
    ensures var c := CheckCode(OtpWithToken(old(db.otps), token), code, now, s, "Invalid token");
      && (c.Err? && c.msg != "OTP has expired" ==>
            r == c.PropagateFailure() && db.otps == old(db.otps) && db.users == old(db.users))
      && (c.Err? && c.msg == "OTP has expired" ==>
            r == c.PropagateFailure() && db.otps == WithoutToken(old(db.otps), token) && db.users == old(db.users))
      && (c.Ok? ==>
            && db.otps == WithoutToken(old(db.otps), token)
            && db.users == MarkedVerified(old(db.users), c.value.userId)
            && (UserWithId(old(db.users), c.value.userId).None? ==> r == Err("User not found"))
            && (UserWithId(old(db.users), c.value.userId).Some? ==>
                  r.Ok? && r.value.id == c.value.userId && r.value.emailVerified && r.value in db.users))
  {
    var row := OtpWithToken(db.otps, token);
    var c := CheckCode(row, code, now, s, "Invalid token");
    if c.Err? && c.msg == "OTP has expired" {
      db.otps := WithoutToken(db.otps, token);
      return c.PropagateFailure();
    }
    if c.Err? {
      return c.PropagateFailure();
    }
    db.otps := WithoutToken(db.otps, token);
    ghost var before := db.users;
    db.users := MarkedVerified(db.users, c.value.userId);
    VerifiedFound(before, c.value.userId);
    var user := UserWithId(db.users, c.value.userId);
    if user.None? {
      return Err("User not found");
    }
    r := Ok(user.value);
  }
}

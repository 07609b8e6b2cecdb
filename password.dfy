/** Password reset by e-mailed code (services/password.service.ts): a code
    is sent for a registered e-mail, checking it swaps the row's token for
    a fresh one, and the fresh token allows one password reset. The random
    token and code and the clock are parameters. */
module Passwords {
  import opened Wrappers
  import opened Text
  import opened Schema
  import opened Rows
  import opened Tables
  import Otps
  import Users

  /** The text of a code drawn from [100000, 999999). */
  lemma ResetCodeSixDigits(code: int)
    requires 100000 <= code < 999999
    ensures |Decimal(code)| == 6 && AllDigits(Decimal(code))
    ensures DecimalValue(Decimal(code)) == code
  {
    assert Pow10(5) == 100000 by {
      assert Pow10(2) == 100;
      assert Pow10(4) == 10000;
    }
    assert Pow10(6) == 1000000;
    DecimalLength(code, 6);
    DecimalRoundTrip(code);
  }

  /** handleSendOTP: the e-mail must be registered; the user's rows are
      replaced by one holding the hash of the code and expiring three
      minutes from now, and the code is mailed. */
  method SendResetCode(db: Database, mailer: Mailer, email: string, rowId: Id, token: string,
                       code: int, now: int, s: Otps.Secret) returns (r: Result<string>)
    requires 100000 <= code < 999999
    modifies db`otps, mailer`sent
    ensures UserWithEmail(db.users, email).None? ==>
      r == Err("Your email is not registered") && db.otps == old(db.otps) && mailer.sent == old(mailer.sent)
    ensures UserWithEmail(db.users, email).Some? ==>
      var userId := UserWithEmail(db.users, email).value.id;
      && r == Ok(token)
      && db.otps == Otps.Replaced(old(db.otps), userId, Otps.IssuedRow(rowId, token, Decimal(code), userId, now, s))
      && mailer.sent == old(mailer.sent) + [Mail(email, Otps.Subject, Otps.Template, Decimal(code))]
  {
    var user := UserWithEmail(db.users, email);
    if user.None? {
      return Err("Your email is not registered");
    }
    var otp := Decimal(code);
    db.otps := Otps.OthersOnly(db.otps, user.value.id);
    db.otps := db.otps + [OtpRow(rowId, token, now + Otps.Lifetime, Otps.Salted(otp, s), user.value.id)];
    mailer.sent := mailer.sent + [Mail(email, Otps.Subject, Otps.Template, otp)];
    r := Ok(token);
  }

  /** The row with id `id` given a fresh token and a new expiry. */
  function Rotated(otps: seq<OtpRow>, id: Id, newToken: string, expiryDate: int): seq<OtpRow> {
    Update(otps, (o: OtpRow) => o.id == id, (o: OtpRow) => o.(token := newToken, expiryDate := expiryDate))
  }

  /** Every row holding `token` is the row with id `id`. */
  predicate OnlyHolder(otps: seq<OtpRow>, token: string, id: Id) {
    forall i :: 0 <= i < |otps| && otps[i].token == token ==> otps[i].id == id
  }

  /** After rotation the old token finds nothing and the fresh token finds
      the rotated row, expiring at the new time. */
  lemma RotationRetiresToken(otps: seq<OtpRow>, row: OtpRow, token: string, newToken: string, expiryDate: int)
    requires row in otps && row.token == token && OnlyHolder(otps, token, row.id)
    requires forall i :: 0 <= i < |otps| ==> otps[i].token != newToken
    ensures var r := Rotated(otps, row.id, newToken, expiryDate);
      && OtpWithToken(r, token).None?
      && OtpWithToken(r, newToken).Some?
      && OtpWithToken(r, newToken).value.id == row.id
      && OtpWithToken(r, newToken).value.expiryDate == expiryDate
  {
    var r := Rotated(otps, row.id, newToken, expiryDate);
    var k :| 0 <= k < |otps| && otps[k] == row;
    assert r[k].token == newToken;
    forall i | 0 <= i < |r| ensures r[i].token != token {
      if otps[i].id != row.id {
        assert otps[i].token != token;
      }
    }
    forall i | 0 <= i < |r| && r[i].token == newToken ensures r[i].id == row.id && r[i].expiryDate == expiryDate {
      assert otps[i].token != newToken;
    }
  }

  /** handleVerifyOTP: the code is checked against the row of the token
      ("Invalid OTP or token", "Invalid OTP", "OTP has expired", in that
      order, and nothing is deleted); a valid code gives the row the fresh
      token and three more minutes, and the fresh token is returned. */
  method VerifyResetCode(db: Database, token: string, code: string, newToken: string, now: int, s: Otps.Secret)
    returns (r: Result<string>)
    modifies db`otps
    ensures var c := Otps.CheckCode(OtpWithToken(old(db.otps), token), code, now, s, "Invalid OTP or token");
      && (c.Err? ==> r == c.PropagateFailure() && db.otps == old(db.otps))
      && (c.Ok? ==> r == Ok(newToken) && db.otps == Rotated(old(db.otps), c.value.id, newToken, now + Otps.Lifetime))
  {
    var c := Otps.CheckCode(OtpWithToken(db.otps, token), code, now, s, "Invalid OTP or token");
    if c.Err? {
      return c.PropagateFailure();
    }
    db.otps := Rotated(db.otps, c.value.id, newToken, now + Otps.Lifetime);
    r := Ok(newToken);
  }

  /** After a reset the token finds no row: it cannot be used twice. */
  lemma ResetTokenSingleUse(otps: seq<OtpRow>, token: string, id: Id)
    requires OnlyHolder(otps, token, id)
    ensures OtpWithToken(Keep(otps, (o: OtpRow) => o.id != id), token).None?
  {
    var k := Keep(otps, (o: OtpRow) => o.id != id);
    forall i | 0 <= i < |k| ensures k[i].token != token {
      assert k[i] in k;
    }
  }

  /** handleResetPassword: "Invalid token" for a token no row holds, "Token
      has expired" for an expired row, "User not found" when its user is
      gone; otherwise the user's password hash becomes `newHash` and the
      row is deleted. */
  method ResetPassword(db: Database, token: string, newHash: string, now: int) returns (r: Result<string>)
    modifies db`users, db`otps
    ensures OtpWithToken(old(db.otps), token).None? ==>
      r == Err("Invalid token") && unchanged(db)
    ensures OtpWithToken(old(db.otps), token).Some? && OtpWithToken(old(db.otps), token).value.expiryDate < now ==>
      r == Err("Token has expired") && unchanged(db)
    ensures var row := OtpWithToken(old(db.otps), token);
      row.Some? && row.value.expiryDate >= now && UserWithId(old(db.users), row.value.userId).None? ==>
        r == Err("User not found") && unchanged(db)
    ensures var row := OtpWithToken(old(db.otps), token);
      row.Some? && row.value.expiryDate >= now && UserWithId(old(db.users), row.value.userId).Some? ==>
        && r == Ok("Password reset successfully")
        && db.users == Users.WithPassword(old(db.users), row.value.userId, newHash)
        && db.otps == Keep(old(db.otps), (o: OtpRow) => o.id != row.value.id)
  {
    var row := OtpWithToken(db.otps, token);
    if row.None? {
      return Err("Invalid token");
    }
    if row.value.expiryDate < now {
      return Err("Token has expired");
    }
    var user := UserWithId(db.users, row.value.userId);
    if user.None? {
      return Err("User not found");
    }
    db.users := Users.WithPassword(db.users, user.value.id, newHash);
    db.otps := Keep(db.otps, (o: OtpRow) => o.id != row.value.id);
    r := Ok("Password reset successfully");
  }
}

/** The account schemas (validation/auth.ts): registering, logging in,
    changing the password and changing the photo. */
module AuthRules {
  import opened Wrappers
  import opened Schema
  import opened Joi
  import AddressRules
  import Auth

  datatype RegisterBody = RegisterBody(
    fullName: Option<string>, email: Option<string>, address: Option<string>,
    phoneNumber: Option<string>, password: Option<string>, confirmPassword: Option<string>,
    gender: Option<string>, dateOfBirth: Option<string>)

  /** createUserSchema; the confirmation must be the password itself. */
  predicate RegisterAccepted(b: RegisterBody, f: Formats) {
    && RequiredText(b.fullName, 6, 255)
    && FormatKey(b.email, true, f.email)
    && RequiredText(b.address, 10, 500)
    && AddressRules.PhoneOk(b.phoneNumber)
    && RequiredText(b.password, 6, 255)
    && b.confirmPassword.Some? && b.confirmPassword == b.password
    && b.gender.Some? && StringOk(b.gender.value, false, false, 0, None)
    && FormatKey(b.dateOfBirth, true, f.isoDate)
  }

  function RegisterRequestOf(b: RegisterBody, f: Formats): Auth.RegisterRequest
    requires RegisterAccepted(b, f)
  {
    Auth.RegisterRequest(b.email.value, b.password.value, b.dateOfBirth.value, b.fullName.value,
                         b.phoneNumber.value, b.gender.value, b.address.value)
  }

  datatype LoginBody = LoginBody(email: Option<string>, password: Option<string>)

  predicate LoginAccepted(b: LoginBody, f: Formats) {
    FormatKey(b.email, true, f.email) && RequiredText(b.password, 6, 255)
  }

  datatype ChangePasswordBody = ChangePasswordBody(
    oldPassword: Option<string>, newPassword: Option<string>, confirmPassword: Option<string>)

  /** changePasswordSchema: the new password differs from the old one and
      the confirmation is the new password. */
  predicate ChangePasswordAccepted(b: ChangePasswordBody) {
    && RequiredText(b.oldPassword, 6, 255)
    && RequiredText(b.newPassword, 6, 255)
    && b.newPassword != b.oldPassword
    && b.confirmPassword.Some? && b.confirmPassword == b.newPassword
  }

  datatype PhotoBody = PhotoBody(photoUrl: Option<string>)

  predicate PhotoAccepted(b: PhotoBody, f: Formats) {
    FormatKey(b.photoUrl, true, f.uri)
  }

  /** The width of users.fullName, varchar(255). The schema bounds no
      other column of the users row. */
  predicate UserFits(u: User) {
    |u.fullName| <= 255
  }

  /** An accepted registration creates a user and a default address that
      fit their tables, and the address carries the user's name. */
  lemma AcceptedRegistrationFits(b: RegisterBody, f: Formats, passwordHash: string, userId: Id,
                                 addressId: Id, now: int)
    requires RegisterAccepted(b, f)
    ensures var r := RegisterRequestOf(b, f);
      && UserFits(NewUser(userId, r.fullName, r.email, r.dateOfBirth, r.gender, passwordHash, now))
      && AddressRules.FitsColumns(Auth.FirstAddress(addressId, r, userId))
      && Auth.FirstAddress(addressId, r, userId).fullName == r.fullName
  {
    Joi.DigitRunMeaning(b.phoneNumber.value, 10);
  }

  /** The password chosen at registration is one the login schema accepts
      with the same e-mail. */
  lemma RegisteredPasswordLogsIn(b: RegisterBody, f: Formats)
    requires RegisterAccepted(b, f)
    ensures LoginAccepted(LoginBody(b.email, b.password), f)
  {
  }

  /** So is a password chosen by an accepted change, and the old one can
      never be chosen again as is. */
  lemma ChangedPasswordLogsIn(b: ChangePasswordBody, email: Option<string>, f: Formats)
    requires ChangePasswordAccepted(b) && FormatKey(email, true, f.email)
    ensures LoginAccepted(LoginBody(email, b.newPassword), f)
    ensures b.newPassword.value != b.oldPassword.value
  {
  }

  /** Registering refuses a confirmation that differs from the password, and
      a change refuses reusing the old password, whatever else is sent. */
  lemma MismatchesRefused(r: RegisterBody, c: ChangePasswordBody, f: Formats)
    ensures r.confirmPassword != r.password ==> !RegisterAccepted(r, f)
    ensures c.newPassword == c.oldPassword ==> !ChangePasswordAccepted(c)
    ensures c.confirmPassword != c.newPassword ==> !ChangePasswordAccepted(c)
  {
  }
}

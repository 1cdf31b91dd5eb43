/**
  The account endpoints `login_access_token`, `recover_password` and
  `reset_password`: the order in which they check their collaborators'
  answers, the error each check raises, and the one change of state, the
  replacement of a user's password hash.

  The collaborators are inputs: the answer of `crud.user.authenticate`, the
  users table that `crud.user.get_by_email` queries, and the opaque
  functions that create an access token, create and verify a reset token and
  hash a password.
*/
module Auth {
  import opened Wrappers

  /** The fields of a user the handlers read or write. */
  datatype UserRecord = UserRecord(id: int, email: string, hashedPassword: string, isActive: bool)

  /** An `HTTPException`: status code and detail message. */
  datatype HttpError = HttpError(statusCode: int, detail: string)

  const IncorrectCredentials := HttpError(400, "Incorrect email or password")
  const InactiveUser := HttpError(400, "Inactive user")
  const UnknownUser := HttpError(404, "The user with this username does not exist in the system.")
  const InvalidToken := HttpError(400, "Invalid token")

  /** `{"access_token": ..., "token_type": ...}` */
  datatype BearerToken = BearerToken(accessToken: string, tokenType: string)

  /** `{"msg": ...}` */
  datatype Msg = Msg(msg: string)

  const RecoveryEmailSent := Msg("Password recovery email sent")
  const PasswordUpdated := Msg("Password updated successfully")

  /** The arguments handed to `send_reset_password_email`. */
  datatype ResetEmail = ResetEmail(emailTo: string, email: string, token: string)

  /** A successful recovery: the response body and the email it sends. */
  datatype Recovery = Recovery(response: Msg, sent: ResetEmail)

  /** The users table as `get_by_email` sees it: users by email address. */
  type Store = map<string, UserRecord>

  function GetByEmail(store: Store, email: string): (u: Option<UserRecord>) {
    if email in store then Some(store[email]) else None
  }

  /** Python's truth test on the optional email a reset token decodes to. */
  predicate Truthy(s: Option<string>) {
    s.Some? && s.value != ""
  }

  /**
    `authenticated` is what `crud.user.authenticate` returned for the form's
    username and password; `createAccessToken(subject, minutes)` is
    `security.create_access_token`.
  */
  function LoginAccessToken(authenticated: Option<UserRecord>, expireMinutes: int,
                            createAccessToken: (int, int) -> string): (r: Result<BearerToken, HttpError>)
    // Failed authentication is reported first, whatever the activity flag.
    ensures authenticated.None? ==> r == Failure(IncorrectCredentials)
    ensures authenticated.Some? && !authenticated.value.isActive ==> r == Failure(InactiveUser)
    // Success exactly for an authenticated active user, with a bearer token for that user's id.
    ensures r.Success? <==> authenticated.Some? && authenticated.value.isActive
    ensures r.Success? ==>
              r.value == BearerToken(createAccessToken(authenticated.value.id, expireMinutes), "bearer")
  {
    if authenticated.None? then
      Failure(IncorrectCredentials)
    else if !authenticated.value.isActive then
      Failure(InactiveUser)
    else
      Success(BearerToken(createAccessToken(authenticated.value.id, expireMinutes), "bearer"))
  }

  /** `generateResetToken(email)` is `generate_password_reset_token`. */
  function RecoverPassword(email: string, store: Store, generateResetToken: string -> string): (r: Result<Recovery, HttpError>)
    // An unknown address is a 404; a known one always succeeds, active or not.
    ensures r.Failure? <==> email !in store
    ensures r.Failure? ==> r.error == UnknownUser
    // The token is made for the requested address and mailed to the stored user's address.
    ensures r.Success? ==>
              && r.value.response == RecoveryEmailSent
              && r.value.sent == ResetEmail(store[email].email, email, generateResetToken(email))
  {
    match GetByEmail(store, email)
    case None => Failure(UnknownUser)
    case Some(user) =>
      Success(Recovery(RecoveryEmailSent, ResetEmail(user.email, email, generateResetToken(email))))
  }

  /**
    The decision of `reset_password` and the user record it writes back, with
    `verifyResetToken` standing for `verify_password_reset_token` and `hash`
    for `get_password_hash`.
  */
  function ResetPasswordOutcome(token: string, store: Store, newPassword: string,
                                verifyResetToken: string -> Option<string>,
                                hash: string -> string): (r: Result<UserRecord, HttpError>)
    // 1. An invalid token is refused before any user is looked up.
    ensures !Truthy(verifyResetToken(token)) ==> r == Failure(InvalidToken)
    // 2. Then an unknown address, 3. then an inactive user.
    ensures Truthy(verifyResetToken(token)) && verifyResetToken(token).value !in store ==>
              r == Failure(UnknownUser)
    ensures Truthy(verifyResetToken(token)) && verifyResetToken(token).value in store &&
            !store[verifyResetToken(token).value].isActive ==>
              r == Failure(InactiveUser)
    // Only then the user's hash is replaced by the new password's hash, and nothing else about them.
    ensures r.Success? <==>
              Truthy(verifyResetToken(token)) && verifyResetToken(token).value in store &&
              store[verifyResetToken(token).value].isActive
    ensures r.Success? ==>
              var before := store[verifyResetToken(token).value];
              && r.value.hashedPassword == hash(newPassword)
              && r.value.id == before.id && r.value.email == before.email && r.value.isActive == before.isActive
  {
    var email := verifyResetToken(token);
    if !Truthy(email) then
      Failure(InvalidToken)
    else
      match GetByEmail(store, email.value)
      case None => Failure(UnknownUser)
      case Some(user) =>
        if !user.isActive then Failure(InactiveUser)
        else Success(user.(hashedPassword := hash(newPassword)))
  }

  /**
    A user whose password was reset stays active, so a later login that
    authenticates them is not refused as inactive.
  */
  lemma ResetThenLogin(token: string, store: Store, newPassword: string,
                       verifyResetToken: string -> Option<string>, hash: string -> string,
                       expireMinutes: int, createAccessToken: (int, int) -> string)
    requires ResetPasswordOutcome(token, store, newPassword, verifyResetToken, hash).Success?
    ensures var u := ResetPasswordOutcome(token, store, newPassword, verifyResetToken, hash).value;
      LoginAccessToken(Some(u), expireMinutes, createAccessToken) ==
        Success(BearerToken(createAccessToken(store[verifyResetToken(token).value].id, expireMinutes), "bearer"))
  {
  }

  /**
    Recovery followed by reset: when the token signer decodes a recovery
    token to the address it was made for, the mailed token resets the
    password of the user recovery found exactly when that user is active (a
    user stored under the empty address is the exception: its token is falsy).
  */
  lemma RecoveryThenReset(email: string, store: Store, newPassword: string,
                          generateResetToken: string -> string,
                          verifyResetToken: string -> Option<string>, hash: string -> string)
    requires RecoverPassword(email, store, generateResetToken).Success?
    requires verifyResetToken(generateResetToken(email)) == Some(email)
    ensures var mailed := RecoverPassword(email, store, generateResetToken).value.sent.token;
      var r := ResetPasswordOutcome(mailed, store, newPassword, verifyResetToken, hash);
      && (email == "" ==> r == Failure(InvalidToken))
      && (email != "" ==> (r.Success? <==> store[email].isActive))
      && (r.Success? ==> r.value == store[email].(hashedPassword := hash(newPassword)))
  {
  }

  /**
    Nothing records that a reset token was used: after a successful reset the
    same token resets the password again, on the updated table, to any new
    password.
  */
  lemma ResetTokenReusable(token: string, store: Store, newPassword: string, nextPassword: string,
                           verifyResetToken: string -> Option<string>, hash: string -> string)
    requires ResetPasswordOutcome(token, store, newPassword, verifyResetToken, hash).Success?
    ensures var email := verifyResetToken(token).value;
      var updated := store[email := ResetPasswordOutcome(token, store, newPassword, verifyResetToken, hash).value];
      ResetPasswordOutcome(token, updated, nextPassword, verifyResetToken, hash) ==
        Success(store[email].(hashedPassword := hash(nextPassword)))
  {
  }

  /** A user row of the database session, updated in place by `reset_password`. */
  class User {
    var id: int
    var email: string
    var hashedPassword: string
    var isActive: bool

    function Record(): UserRecord
      reads this
    {
      UserRecord(id, email, hashedPassword, isActive)
    }
  }

  /** The users table: each user is filed under its own (unique) email address. */
  ghost predicate IndexedByEmail(users: map<string, User>)
    reads users.Values
  {
    forall e :: e in users ==> users[e].email == e
  }

  ghost function Records(users: map<string, User>): (s: Store)
    reads users.Values
    ensures s.Keys == users.Keys
  {
    map e | e in users :: users[e].Record()
  }

  /**
    `reset_password` on the users table: the outcome is the one
    `ResetPasswordOutcome` decides; on success only the found user's hash
    changes, on every error path no user changes.
  */
  method ResetPassword(token: string, newPassword: string, users: map<string, User>,
                       verifyResetToken: string -> Option<string>, hash: string -> string)
    returns (r: Result<Msg, HttpError>)
    requires IndexedByEmail(users)
    modifies users.Values
    ensures IndexedByEmail(users)
    ensures var outcome := ResetPasswordOutcome(token, old(Records(users)), newPassword, verifyResetToken, hash);
      && (r.Failure? <==> outcome.Failure?)
      && (outcome.Failure? ==> r.error == outcome.error && Records(users) == old(Records(users)))
      && (outcome.Success? ==>
            && r.value == PasswordUpdated
            && Records(users) == old(Records(users))[verifyResetToken(token).value := outcome.value])
  {
    var email := verifyResetToken(token);
    if !Truthy(email) {
      return Failure(InvalidToken);
    }
    if email.value !in users {
      return Failure(UnknownUser);
    }
    var user := users[email.value];
    if !user.isActive {
      return Failure(InactiveUser);
    }
    ghost var before := Records(users);
    var hashedPassword := hash(newPassword);
    user.hashedPassword := hashedPassword;
    forall e | e in users && e != email.value
      ensures Records(users)[e] == before[e]
    {
      assert users[e] != user;
    }
    assert Records(users) == before[email.value := user.Record()];
    r := Success(PasswordUpdated);
  }
}

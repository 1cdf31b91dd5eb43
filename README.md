# Login, password recovery and call routing of voip-video-chat

This project models the endpoint module `backend/app/app/api/api_v1/endpoints/login.py`
of a FastAPI backend that adds Twilio voice, video and chat to a standard user
account service. The module holds five handlers built from straight-line
decisions:

- `login_access_token` issues a bearer token.
- `recover_password` mails a password-reset token.
- `reset_password` replaces a user's password hash.
- `generate_voice_call_token` issues a Twilio access token with its grants.
- `make_outgoing_voice_call` answers the Twilio voice webhook with a TwiML document.

The model has five modules:

- `Wrappers` (`wrappers.dfy`): `Option` and `Result`.
- `PhonePattern` (`phone_pattern.dfy`): the regular expression `^[\d\+\-\(\) ]+$`.
  A recursive greedy scan models how `re` matches it. `LooksLikePhoneNumber` is a
  declarative reference that the scan is proved equal to.
- `CallRouting` (`call_routing.dfy`): the webhook's routing decision. The TwiML
  document is a sequence of verbs (`Dial` with its caller ID and nouns, `Say`).
- `VoiceToken` (`voice_token.dfy`): the claims of the Twilio access token and its grants.
- `Auth` (`auth.dfy`): the three account handlers as functions over their
  collaborators' answers. It also has a `User` class and a `ResetPassword` method
  that updates the users table in place.

Python's `re` decides two behaviours of the phone classifier:

- `\d` matches every Unicode decimal digit (category Nd), so Arabic-Indic or
  full-width digits are dialled as a number. `PhonePattern.IsDecimalDigit` lists
  the 68 Nd blocks of Unicode 15.0.
- `$` also matches just before one final newline. So `"555\n"` is dialled as the
  number `"555\n"`, while `"555\n\n"` is dialled as a client.

The collaborators are inputs:

- `crud.user.authenticate`: its answer is an `Option<UserRecord>`.
- `crud.user.get_by_email`: a lookup in a map from email to user.
- `crud.user.is_active`: read as the user's `is_active` flag.
- `security.create_access_token`, `generate_password_reset_token`,
  `verify_password_reset_token` and `get_password_hash`: function parameters.
- The Twilio settings: a `TwilioSettings` value plus the caller ID.
- The process-wide `IDENTITY` slot: the `storedIdentity` parameter.

A looser reading of these handlers differs from the code in four places. The model follows the code:

- One could read the second branch as running whenever a `phone` field is
  present. The code tests its truth value, so an empty `phone` gets the greeting.
- One could expect an empty form to get the greeting. The code reads `To`
  unconditionally, and reads `phone` whenever `To` is not the caller ID. A
  missing field raises `KeyError`, modelled as `Failure(MissingFormField(name))`.
- One could expect a client name to be connected without a caller ID. The code
  still puts the configured caller ID on the `<Dial>` for a client.
- One could expect an inactive user's login to fail as "Inactive user" whatever
  the password. In the code, a wrong password makes `authenticate` return
  nothing, so the reply is 400 "Incorrect email or password"; activity is
  checked only after authentication succeeds.

Nothing in `login.py` writes the `IDENTITY` slot. Within this module, an incoming
call to the service's own number therefore dials the client named `""`, its
initial value.

## Model

| member | source | states |
|---|---|---|
| PhonePattern.ClassRunEnd | backend/app/app/api/api_v1/endpoints/login.py:136 | The greedy run of `[\d\+\-\(\) ]` from position i stops at the first character outside the class (or the end), and every character it covers is in the class |
| PhonePattern.Matches | backend/app/app/api/api_v1/endpoints/login.py:136 | `phone_pattern.match(s)` is truthy iff s is one or more class characters, optionally followed by exactly one final newline (`LooksLikePhoneNumber`) |
| PhonePattern.EmptyRejected | backend/app/app/api/api_v1/endpoints/login.py:136 | The empty text does not match |
| PhonePattern.LetterRejected | backend/app/app/api/api_v1/endpoints/login.py:136 | A text containing an ASCII letter at any position does not match |
| PhonePattern.TrailingNewlineAccepted | backend/app/app/api/api_v1/endpoints/login.py:136 | Any valid number followed by one newline still matches (Python's `$`) |
| PhonePattern.DoubleNewlineRejected | backend/app/app/api/api_v1/endpoints/login.py:136 | A text ending in two newlines never matches |
| PhonePattern.AcceptedCharacters | backend/app/app/api/api_v1/endpoints/login.py:136 | Every character of a matching text is a class character, except possibly a final newline |
| PhonePattern.FormattedNumberAccepted | backend/app/app/api/api_v1/endpoints/login.py:136 | `"+1 555-0100"` matches |
| PhonePattern.ArabicIndicDigitsAccepted | backend/app/app/api/api_v1/endpoints/login.py:136 | Three Arabic-Indic fives match, because `\d` is Unicode-wide |
| PhonePattern.ClientNameRejected | backend/app/app/api/api_v1/endpoints/login.py:136 | `"alice"` does not match |
| CallRouting.MakeOutgoingVoiceCall | backend/app/app/api/api_v1/endpoints/login.py:140-164 | If To equals the caller ID, the result is one Dial, without a caller ID, to the client with the stored identity, whatever `phone` is or whether it exists. Otherwise a non-empty phone that looks like a number is dialled verbatim as a Number with the caller ID. Otherwise a non-empty phone is dialled verbatim as a Client with the caller ID. An empty phone gives exactly one Say of "Thanks for calling!". The handler fails iff To is missing, or To differs from the caller ID and phone is missing |
| CallRouting.RoutingPartition | backend/app/app/api/api_v1/endpoints/login.py:145-162 | With both fields present, the handler succeeds and its document is exactly one of the four shapes. Each shape occurs iff its branch condition holds |
| CallRouting.DialsOnlyGivenTargets | backend/app/app/api/api_v1/endpoints/login.py:147-160 | Every dialled number is the `phone` text. Every dialled client is the `phone` text or the stored identity. A caller ID is always the configured one |
| CallRouting.InboundIgnoresPhone | backend/app/app/api/api_v1/endpoints/login.py:145-150 | For a call to the service's number, replacing or removing `phone` does not change the result |
| CallRouting.RoutingExamples | backend/app/app/api/api_v1/endpoints/login.py:143-162 | `"+1 555-0100"` dials a Number and `"alice"` dials a Client, both with the caller ID. `""` gets the greeting. An empty form fails on the missing `To` |
| VoiceToken.GenerateVoiceCallToken | backend/app/app/api/api_v1/endpoints/login.py:104-134 | The response echoes identity unchanged, and that identity is the token's. The token uses the configured account SID, API key and secret. Its grants are a voice grant with incoming_allow = true and the configured TwiML application SID, then a video grant. A third grant, chat with the configured service SID, is present iff that SID is truthy |
| VoiceToken.GrantSetComposition | backend/app/app/api/api_v1/endpoints/login.py:117-130 | The set of grant kinds is exactly {voice, video} without a truthy chat service SID, and {voice, video, chat} with one |
| VoiceToken.GrantKindsDistinct | backend/app/app/api/api_v1/endpoints/login.py:117-130 | No two grants of an issued token have the same kind |
| VoiceToken.GrantsIndependentOfIdentity | backend/app/app/api/api_v1/endpoints/login.py:115-130 | The grants are the same whatever identity is requested |
| Auth.LoginAccessToken | backend/app/app/api/api_v1/endpoints/login.py:27-47 | A failed authentication gives 400 "Incorrect email or password", checked before activity. An authenticated inactive user gives 400 "Inactive user". Success happens exactly for an active authenticated user: a token created for that user's id and the configured lifetime, with token_type "bearer" |
| Auth.RecoverPassword | backend/app/app/api/api_v1/endpoints/login.py:58-74 | An unknown address gives 404, and only it fails. Otherwise the response is "Password recovery email sent", and the mail goes to the stored user's address with a token generated for the requested address |
| Auth.ResetPasswordOutcome | backend/app/app/api/api_v1/endpoints/login.py:77-101 | A falsy verified email gives 400 "Invalid token", whatever the users table holds. Then an unknown address gives 404, then an inactive user 400. Success happens exactly when all checks pass. The written-back user has the new password's hash and the same id, email and activity |
| Auth.ResetThenLogin | backend/app/app/api/api_v1/endpoints/login.py:95-98 | After a successful reset, a login that authenticates the updated user succeeds with a bearer token for the same user id |
| Auth.RecoveryThenReset | backend/app/app/api/api_v1/endpoints/login.py:63-101 | If the signer decodes a reset token to the address it was made for, the mailed token resets the recovered user's password iff that user is active. The result is that user with only the hash replaced. An empty address is refused as an invalid token |
| Auth.ResetTokenReusable | backend/app/app/api/api_v1/endpoints/login.py:86-101 | No token is consumed: after a successful reset, the same token resets the password again on the updated table, to any new password, giving that user with the newest hash |
| Auth.ResetPassword | backend/app/app/api/api_v1/endpoints/login.py:77-101 | In-place reset on the users table: the result is the one `ResetPasswordOutcome` decides. On success, only the found user's record changes, to the updated record. On every error path, no user changes. The table stays indexed by email |

## Left out

- `test_token` (lines 50-55) returns the user resolved by `deps.get_current_user`. Resolving a bearer token to a user is dependency-injection code that is not part of this model, so the handler is an identity function here and is not modelled.
- JWT construction and signing (`AccessToken.to_jwt`) are not modelled. The token is modelled by the claims and key it is built from.
- The `.decode('utf-8')` applied to the result of `to_jwt()` is assumed to succeed, that is, `to_jwt()` is taken to return bytes. A library version that returns `str` would make the endpoint raise on every call.
- TwiML XML serialisation (`str(response)`, `Response(..., media_type="text/xml")`) is not modelled. The document is modelled by its verbs.
- Password hashing, access-token creation and reset-token generation and verification are opaque functions passed as parameters. `app.utils` and `app.core.security` are not part of this model, so token expiry and the email a token decodes to are not modelled. The handler itself keeps no record of used tokens, and `Auth.ResetTokenReusable` shows that a token stays usable after a successful reset.
- `crud.user`, the SQLAlchemy session (`db.add`, `db.commit`) and the atomicity of the commit are not part of this model. `ResetPassword` writes the field in place and models neither the commit nor a failing commit.
- `crud.user.is_active` is taken to read the user's `is_active` flag, because the crud module is not part of this model.
- The `IDENTITY` slot is a parameter. Its use as shared mutable state across concurrent requests, and its race, are not modelled.
- Email delivery (`send_reset_password_email`) is not performed. The model returns the arguments the handler passes to it.
- `print(number)` and the asynchronous parsing of the form are I/O. The parsed form is a map with one value per field. For a repeated field, Starlette's `FormData` returns the last value, which is taken as that map's entry. Uploaded-file values are not modelled.
- Request validation by FastAPI (a missing `identity`, `token` or `new_password` gives a 422 before the handler runs) is framework behaviour and is not modelled. The 500 that an uncaught `KeyError` produces in the call webhook is also framework behaviour; the model records only which field was missing.
- PhonePattern.IsDecimalDigit follows Unicode 15.0. A Python built on another Unicode version has a slightly different set of Nd digits.
- `frontend1/public/src/router/index.js` is a static route table with no decisions. It is not modelled.

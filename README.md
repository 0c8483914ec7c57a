# Account and email-verification core of mern-authentify

This project models the server side of the application's authentication:
the five handlers of `server/controllers/authController.js` (`register`,
`login`, `logout`, `sendVerifyOtp`, `verifyEmail`) over the user collection,
and the `userAuth` middleware of `server/middleware/userAuth.js` that turns
the `token` cookie into either `next()` or an error response.

Layout:

- `wrappers.dfy` — `Option`.
- `crypto.dfy` — `Bcrypt` (a `Digest` type distinct from plaintext strings that keeps the first 72 characters bcrypt reads, `Hash`, `Compare`) and `Jwt`
  (a signed `Token` naming a user id, and the result of `jwt.verify`).
- `otp.dfy` — the six-digit code `String(Math.floor(100000 + Math.random() * 900000))`:
  the draw is an input of type `Roll`, the decimal rendering is modelled
  exactly and proved to be six digits, without a leading zero, and invertible.
- `user_model.dfy` — a `User` record, the collection as a value `Db`
  (records by id plus the email index, with the invariant that ties them and
  keeps every record consistent), and the `UserStore` class whose maps
  `create()` and `save()` update in place.
- `auth_controller.dfy` — each handler as a specification function from the
  old collection to an `Outcome` (reply and new collection), whose ensures
  clauses state what the handler promises, and, for every handler but
  `logout` (which touches no record), as a method that performs the
  handler's steps on a `UserStore` and is proved equal to its specification.
- `auth_lifecycle.dfy` — properties across calls: register then login,
  duplicate registration, and the per-account state machine
  Unverified → OtpPending → Verified.
- `user_auth.dfy` — the middleware as a total function onto six verdicts.

A reply carries the HTTP status, the JSON `success` and `message`, and what
happens to the `token` cookie. Inputs the handlers take from their
surroundings are parameters: `Env` holds `Date.now()`, whether the database
answers, whether `JWT_SECRET` is set and whether the mail is delivered; the
new document's `_id` is an input to `register`; the random draw is an input
to `sendVerifyOtp`; `jwt.verify` is a function argument of the middleware.
Request-body fields are strings, with `""` standing for a missing or empty
(falsy) field.

Behaviour of the code that the model keeps as written:

- `register` creates the record before it checks for the signing secret and
  before the welcome mail, so both of those 500 replies leave the account
  stored; on a mail failure the reply also still sets the token cookie,
  because the cookie is attached before the mail is sent.
- `login` gives the same 401 reply for an unknown email and a wrong password;
  without a signing secret `jwt.sign` throws and the reply is 500.
- `sendVerifyOtp` does not check for a missing user (reading
  `isAccountVerified` of `null` throws, and the catch replies with the
  error's message), and its mail step reads an undeclared `email`, so after
  the new code and expiry are saved the handler always replies
  `success: false` with the ReferenceError's message. It never reports
  success, but the code it saved is usable.
- `verifyEmail` compares the code before the expiry, so a wrong code after
  expiry is reported as "Invalid OTP"; an expiry equal to now is accepted;
  the comparison `expireAt < now` treats `null` as 0.
- The handlers read `userId` from the request body; the middleware's
  `req.userId` is not what they consult, so the two are independent here.
- Replies for a bad or expired code use status 400 (not 401), and the
  verification window includes its end point.

## Model

| member | source | states |
|---|---|---|
| Bcrypt.Hash | server/controllers/authController.js:29 | the stored digest is accepted by compare for exactly the passwords that agree with the registered one on the first 72 bytes bcrypt reads |
| Bcrypt.Significant | server/controllers/authController.js:99 | the part of a password bcrypt reads: the whole password up to 72 bytes, otherwise a prefix of exactly 72 |
| Bcrypt.LongPasswordsCollide | server/controllers/authController.js:99 | two passwords of 72 bytes or more that share their first 72 are both accepted by the digest of either |
| Otp.Decimal | server/controllers/authController.js:163 | String(n) is a non-empty string of decimal digits with no leading zero unless n is 0 |
| Otp.OtpCode | server/controllers/authController.js:163 | the stored code is six decimal digits, never with a leading zero, and denotes exactly 100000 + the draw, so it lies in [100000, 999999] |
| Otp.ValueOfDecimal | server/controllers/authController.js:163 | reading back the decimal rendering of a number gives that number |
| Otp.DecimalLength | server/controllers/authController.js:163 | a number between 10^k and 10^(k+1) renders as k + 1 digits |
| Otp.DecimalInjective | server/controllers/authController.js:163 | two numbers render alike exactly when they are equal |
| Otp.OtpCodeInjective | server/controllers/authController.js:163 | two draws give the same code exactly when they are the same draw |
| UserModel.NewRecord | server/controllers/authController.js:31-35 | the created document has the given name, email and hashed password, is not verified, has no code, and satisfies the record invariant |
| UserModel.Db.Insert | server/controllers/authController.js:31-35 | create adds one record under a fresh id, keeps every other record and keeps the email index and record invariants |
| UserModel.Db.Replace | server/controllers/authController.js:165-168 | save replaces one record, keeps every other record and the key set, and keeps the invariants |
| UserModel.EmailsUnique | server/controllers/authController.js:20-27 | no two stored records share an email |
| UserModel.UserStore.FindOne | server/controllers/authController.js:20 | findOne returns a stored record with that email and its id, or null only when no record has that email |
| UserModel.UserStore.FindById | server/controllers/authController.js:157 | findById returns the record stored under the id, and null exactly when there is none |
| UserModel.UserStore.Create | server/controllers/authController.js:31-35 | create stores the record when its generated id is free and otherwise changes nothing |
| UserModel.UserStore.Save | server/controllers/authController.js:168 | save writes the changed record back in place and nothing else |
| AuthController.RegisterOutcome | server/controllers/authController.js:8-75 | 400 exactly when a field is empty and 409 exactly when the email is taken, both changing nothing; otherwise exactly one record with the hashed password is added when the id is free; a rejected query or a taken id gives 500 changing nothing; a missing secret gives 500 "JWT secret not configured" and a failed mail 500 "Server error", both with the record kept (the cookie too after a mail failure); 201 with a token for the new id only when every step succeeds |
| AuthController.Register | server/controllers/authController.js:8-75 | the handler's steps on the store yield the reply and new collection of RegisterOutcome |
| AuthController.LoginReply | server/controllers/authController.js:78-129 | 400 for an empty field; one identical 401 for an unknown email or a wrong password; 200 with a token exactly when a stored record with that email accepts the password and a secret is set, and the token names that record; 500 for a rejected query or for a match without a secret |
| AuthController.Login | server/controllers/authController.js:78-129 | the handler's steps on the store yield LoginReply and change nothing |
| AuthController.LogoutOutcome | server/controllers/authController.js:132-150 | always 200, clears the cookie and leaves the collection unchanged |
| AuthController.SendVerifyOtpOutcome | server/controllers/authController.js:153-183 | never reports success; a missing user or an already verified account changes nothing; an unverified account gets a six-digit code and an expiry of now + 86400000 ms saved before the failing mail step, with no other record or field changed; every record stays consistent (a verified account has no code, a code has an expiry) and verified accounts stay verified |
| AuthController.SendVerifyOtp | server/controllers/authController.js:153-183 | the handler's steps on the store yield the reply and new collection of SendVerifyOtpOutcome |
| AuthController.VerifyEmailOutcome | server/controllers/authController.js:185-244 | 400 for a missing field, 500 exactly when the query is rejected, 404 for an unknown user, "Invalid OTP" for a mismatching code, "OTP expired" only for the matching code after its expiry (`ExpiryValue` reading a null expiry as 0, as `<` does), each changing nothing; success exactly for the matching code at or before its expiry, setting verified and clearing code and expiry in one save with nothing else changed; every record stays consistent and verified accounts stay verified |
| AuthController.VerifyEmail | server/controllers/authController.js:185-244 | the handler's steps on the store yield the reply and new collection of VerifyEmailOutcome |
| AuthLifecycle.RegisterThenLogin | server/controllers/authController.js:89-110 | after a stored registration, login with the same email and password returns 200 with a token for the new id; a password that differs within its first 72 bytes gets the generic 401, one that agrees there is accepted too |
| AuthLifecycle.RegisterTwiceConflicts | server/controllers/authController.js:20-27 | once an email is stored, registering it again gives 409 and changes nothing |
| AuthLifecycle.RegisterStartsUnverified | server/controllers/authController.js:31-35 | a new account starts unverified without a code and every earlier account is untouched |
| AuthLifecycle.SendVerifyOtpPhase | server/controllers/authController.js:159-168 | sendVerifyOtp moves an unverified account to OtpPending and never touches a verified one |
| AuthLifecycle.VerifyEmailPhase | server/controllers/authController.js:207-228 | verifyEmail succeeds only from OtpPending and then yields Verified; every failure leaves the phase unchanged |
| AuthLifecycle.IssuedCodeWindow | server/controllers/authController.js:163-221 | a code issued at t is accepted up to and including t + 24 h, reported expired after, and any other code is reported invalid |
| AuthLifecycle.ResendReplacesCode | server/controllers/authController.js:163-168 | a second sendVerifyOtp with a different draw makes the first code invalid |
| AuthLifecycle.VerifyReplayFails | server/controllers/authController.js:224-228 | once a code is consumed, the same request again gives "Invalid OTP" and changes nothing |
| UserAuth.Authenticate | server/middleware/userAuth.js:3-51 | exactly one verdict per request: missing or empty token, no id, expired, malformed, other error, or next with exactly the decoded id, each under the stated condition |
| UserAuth.Respond | server/middleware/userAuth.js:7-49 | a response is sent exactly when next is not called, with 500 only for an unexpected error and 401 otherwise |
| UserAuth.RefusalsDistinct | server/middleware/userAuth.js:29-49 | different refusals send different responses, so an expired session is told apart from a malformed token |

## Left out

- Bcrypt.Hash: deterministic and keeps the first 72 characters of the password; a character stands for one UTF-8 byte, so the limit is exact only for ASCII passwords, and salts, the work factor, the one-way property and hash collisions are not modelled.
- Token signing: `jwt.sign` is a token naming the id; signatures, secrets and the seven-day claim are not modelled, and `jwt.verify` is a function argument.
- `Math.random()` is floating point: the model takes the integer `Math.floor(Math.random() * 900000)` as an input.
- `Date.now()` is a parameter (`Env.now`).
- Mail: `transporter.sendMail` is a success flag in `register`; `server/testEmail.js` is not part of this model. In `sendVerifyOtp` the mail is never sent, because the undeclared `email` throws first.
- Cookies: the cookie options and the `clearCookie` options are not modelled, only whether the reply sets or clears the token.
- Environment variables: `JWT_SECRET` is a boolean, `EMAIL_USER` and `NODE_ENV` are not modelled.
- Database failures: any rejected query is one flag (`Env.storeUp`) checked before the first query; a failure between two queries of one handler, and the CastError mongoose raises for an id that is not an ObjectId, are not separated from it. The texts of caught errors are named, not spelled out.
- `server/models/userModel.js` is not part of this model: the schema defaults are taken to be not verified, an empty code and an expiry of 0, and emails are kept unique by `register`'s check rather than by a database index.
- Request-body values other than strings (numbers, objects) are not modelled.
- `logout`'s catch branch: nothing in its body can throw, so the model has no 500 path for it.
- Concurrency: interleavings of concurrent requests and races between `save` calls are not modelled; every handler runs alone.
- The client (`client/src/...`) is presentation code and is not part of this model.

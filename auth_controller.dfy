/**
 * The five request handlers of the authentication controller, over the user
 * collection. Each handler is given as a function from the old collection to
 * the reply and the new collection (its specification, with the properties
 * the handler promises as ensures clauses); every handler but logout, which
 * touches no record, is also given as a method that runs the handler's steps
 * against a UserStore and is proved to agree with it.
 */
module AuthController {

  import opened Wrappers
  import opened Bcrypt
  import opened Jwt
  import opened Otp
  import opened UserModel

  /** 24 * 60 * 60 * 1000: how long a verification code is accepted, in ms. */
  const OtpLifetime: int := 86_400_000

  /**
   * What a handler reads from its surroundings: Date.now(), whether the
   * database answers, whether process.env.JWT_SECRET is set, and whether
   * transporter.sendMail resolves.
   */
  datatype Env = Env(now: int, storeUp: bool, jwtSecretSet: bool, mailDelivers: bool)

  /** Errors a handler catches and whose `message` it sends back as is. */
  datatype Thrown =
    | StoreFailure      // a rejected database call
    | NullUserRead      // TypeError: reading isAccountVerified of null
    | EmailNotDefined   // ReferenceError: email is not defined

  datatype Message = Text(text: string) | ErrorText(thrown: Thrown)

  /** What the reply does to the `token` cookie. */
  datatype Cookie = Untouched | SetToken(token: Token) | Cleared

  /** Status code, the JSON envelope's success and message, and the cookie. */
  datatype Reply = Reply(status: int, success: bool, message: Message, cookie: Cookie)

  datatype Outcome = Outcome(reply: Reply, db: Db)

  function Fail(status: int, text: string): Reply
  {
    Reply(status, false, Text(text), Untouched)
  }

  /** res.json({ success: false, message: error.message }): status 200. */
  function Caught(thrown: Thrown): Reply
  {
    Reply(200, false, ErrorText(thrown), Untouched)
  }

  const ServerError: Reply := Fail(500, "Server error")
  const InvalidCredentials: Reply := Fail(401, "Invalid credentials")

  /** Verification never turns a verified account back. */
  predicate KeepsVerified(db: Db, db': Db)
  {
    forall id :: id in db.users && db.users[id].isAccountVerified ==>
      id in db'.users && db'.users[id].isAccountVerified
  }

  // ---------------------------------------------------------------- register

  function RegisterOutcome(db: Db, name: string, email: string, password: string, newId: ObjectId, env: Env): (o: Outcome)
    requires db.Valid()
    ensures o.db.Valid() && KeepsVerified(db, o.db)
    ensures o.reply.status == 400 <==> name == "" || email == "" || password == ""
    ensures o.reply.status == 409 <==>
      name != "" && email != "" && password != "" && env.storeUp && email in db.byEmail
    ensures o.reply.status in {400, 409} ==> o.db == db && o.reply.cookie == Untouched
    // a rejected query, or a generated _id already taken, is caught as a 500 that changes nothing
    ensures name != "" && email != "" && password != "" && (!env.storeUp || (email !in db.byEmail && newId in db.users)) ==>
      o == Outcome(ServerError, db)
    // with the record stored: no secret gives its own 500, a failed mail the generic one with the cookie
    ensures o.db != db && !env.jwtSecretSet ==> o.reply == Fail(500, "JWT secret not configured")
    ensures o.db != db && env.jwtSecretSet && !env.mailDelivers ==>
      o.reply == ServerError.(cookie := SetToken(Signed(newId)))
    // the record is stored exactly when every check before create() passes
    ensures o.db == db ||
      (newId !in db.users && email !in db.byEmail && o.db == db.Insert(newId, NewRecord(name, email, Hash(password))))
    ensures o.db != db <==>
      name != "" && email != "" && password != "" && env.storeUp && email !in db.byEmail && newId !in db.users
    // a missing secret or a failed mail still leaves the record stored
    ensures o.db != db && !(env.jwtSecretSet && env.mailDelivers) ==> o.reply.status == 500
    ensures o.reply.success <==> o.reply.status == 201
    ensures o.reply.status == 201 <==> o.db != db && env.jwtSecretSet && env.mailDelivers
    // the cookie is set once the token is signed, even if the mail then fails
    ensures o.reply.cookie != Untouched <==> o.db != db && env.jwtSecretSet
    ensures o.reply.cookie != Untouched ==> o.reply.cookie == SetToken(Signed(newId))
  {
    if name == "" || email == "" || password == "" then
      Outcome(Fail(400, "All fields are required"), db)
    else if !env.storeUp then
      Outcome(ServerError, db)
    else if email in db.byEmail then
      Outcome(Fail(409, "User already exists"), db)
    else if newId in db.users then
      Outcome(ServerError, db)
    else
      var db' := db.Insert(newId, NewRecord(name, email, Hash(password)));
      assert newId in db'.users && newId !in db.users;
      if !env.jwtSecretSet then
        Outcome(Fail(500, "JWT secret not configured"), db')
      else if !env.mailDelivers then
        Outcome(ServerError.(cookie := SetToken(Signed(newId))), db')
      else
        Outcome(Reply(201, true, Text("Registration successful"), SetToken(Signed(newId))), db')
  }

  method Register(store: UserStore, name: string, email: string, password: string, newId: ObjectId, env: Env)
    returns (reply: Reply)
    requires store.Valid()
    modifies store
    ensures store.Valid()
    ensures Outcome(reply, store.Snapshot()) == RegisterOutcome(old(store.Snapshot()), name, email, password, newId, env)
  {
    if name == "" || email == "" || password == "" {
      return Fail(400, "All fields are required");
    }
    if !env.storeUp {
      return ServerError;
    }
    var existing := store.FindOne(email);
    if existing.Some? {
      return Fail(409, "User already exists");
    }
    var hashed := Hash(password);
    var created := store.Create(newId, NewRecord(name, email, hashed));
    if !created {
      return ServerError;
    }
    if !env.jwtSecretSet {
      return Fail(500, "JWT secret not configured");
    }
    var token := Signed(newId);
    if !env.mailDelivers {
      return ServerError.(cookie := SetToken(token));
    }
    return Reply(201, true, Text("Registration successful"), SetToken(token));
  }

  // ------------------------------------------------------------------- login

  /** Some record has this email and its digest accepts this password. */
  predicate Authentic(db: Db, email: string, password: string)
  {
    exists id :: id in db.users && db.users[id].email == email && Compare(password, db.users[id].password)
  }

  function LoginReply(db: Db, email: string, password: string, env: Env): (r: Reply)
    requires db.Valid()
    ensures r.status == 400 <==> email == "" || password == ""
    // an unknown email and a wrong password get one and the same reply
    ensures r.status == 401 <==> email != "" && password != "" && env.storeUp && !Authentic(db, email, password)
    ensures r.status == 401 ==> r == InvalidCredentials
    // a rejected query, or jwt.sign throwing without a secret, is caught as a 500
    ensures email != "" && password != "" && (!env.storeUp || (Authentic(db, email, password) && !env.jwtSecretSet)) ==>
      r == ServerError
    ensures r.success <==> r.status == 200
    ensures r.status == 200 <==>
      email != "" && password != "" && env.storeUp && Authentic(db, email, password) && env.jwtSecretSet
    // the token names the record whose email and password matched
    ensures r.cookie != Untouched <==> r.status == 200
    ensures r.cookie != Untouched ==>
      r.cookie.SetToken? && var id := r.cookie.token.id;
      id in db.users && db.users[id].email == email && Compare(password, db.users[id].password)
  {
    if email == "" || password == "" then
      Fail(400, "Email and password are required")
    else if !env.storeUp then
      ServerError
    else if email !in db.byEmail then
      InvalidCredentials
    else
      var id := db.byEmail[email];
      if !Compare(password, db.users[id].password) then
        assert !Authentic(db, email, password) by {
          forall other | other in db.users && db.users[other].email == email
            ensures other == id
          {
            EmailsUnique(db, other, id);
          }
        }
        InvalidCredentials
      else if !env.jwtSecretSet then
        ServerError  // jwt.sign throws without a secret
      else
        Reply(200, true, Text("Login successful"), SetToken(Signed(id)))
  }

  method Login(store: UserStore, email: string, password: string, env: Env) returns (reply: Reply)
    requires store.Valid()
    ensures reply == LoginReply(store.Snapshot(), email, password, env)
  {
    if email == "" || password == "" {
      return Fail(400, "Email and password are required");
    }
    if !env.storeUp {
      return ServerError;
    }
    var user := store.FindOne(email);
    if user.None? {
      return InvalidCredentials;
    }
    var (id, record) := user.value;
    var isMatch := Compare(password, record.password);
    if !isMatch {
      return InvalidCredentials;
    }
    if !env.jwtSecretSet {
      return ServerError;
    }
    return Reply(200, true, Text("Login successful"), SetToken(Signed(id)));
  }

  // ------------------------------------------------------------------ logout

  /** Always 200: the cookie is cleared and the collection is not touched. */
  function LogoutOutcome(db: Db): (o: Outcome)
    ensures o.db == db && o.reply.status == 200 && o.reply.success && o.reply.cookie == Cleared
  {
    Outcome(Reply(200, true, Text("Logged out successfully"), Cleared), db)
  }

  // ---------------------------------------------------------- sendVerifyOtp

  /** The record sendVerifyOtp saves: a fresh code that expires in 24 hours. */
  function WithCode(u: User, roll: Roll, now: int): User
  {
    u.(verifyOtp := OtpCode(roll), verifyOtpExpireAt := Some(now + OtpLifetime))
  }

  function SendVerifyOtpOutcome(db: Db, userId: string, roll: Roll, env: Env): (o: Outcome)
    requires db.Valid()
    ensures o.db.Valid() && KeepsVerified(db, o.db)
    // the undeclared `email` in the mail step makes every path fail
    ensures o.reply.status == 200 && !o.reply.success && o.reply.cookie == Untouched
    ensures env.storeUp && userId !in db.users ==> o.reply == Caught(NullUserRead) && o.db == db
    ensures env.storeUp && userId in db.users && db.users[userId].isAccountVerified ==>
      o.reply.message == Text("Account Already verified") && o.db == db
    // an unverified account gets a six-digit code and a 24-hour expiry, saved before the mail step fails
    ensures env.storeUp && userId in db.users && !db.users[userId].isAccountVerified ==>
      && o.reply == Caught(EmailNotDefined)
      && o.db.users.Keys == db.users.Keys
      && o.db.users[userId] == WithCode(db.users[userId], roll, env.now)
      && |o.db.users[userId].verifyOtp| == 6
      && 100000 <= ValueOf(o.db.users[userId].verifyOtp) <= 999999
      && forall other :: other in db.users && other != userId ==> o.db.users[other] == db.users[other]
    ensures !(env.storeUp && userId in db.users && !db.users[userId].isAccountVerified) ==> o.db == db
  {
    if !env.storeUp then
      Outcome(Caught(StoreFailure), db)
    else if userId !in db.users then
      Outcome(Caught(NullUserRead), db)
    else if db.users[userId].isAccountVerified then
      Outcome(Reply(200, false, Text("Account Already verified"), Untouched), db)
    else
      Outcome(Caught(EmailNotDefined), db.Replace(userId, WithCode(db.users[userId], roll, env.now)))
  }

  method SendVerifyOtp(store: UserStore, userId: string, roll: Roll, env: Env) returns (reply: Reply)
    requires store.Valid()
    modifies store
    ensures store.Valid()
    ensures Outcome(reply, store.Snapshot()) == SendVerifyOtpOutcome(old(store.Snapshot()), userId, roll, env)
  {
    if !env.storeUp {
      return Caught(StoreFailure);
    }
    var user := store.FindById(userId);
    if user.None? {
      return Caught(NullUserRead);
    }
    var u := user.value;
    if u.isAccountVerified {
      return Reply(200, false, Text("Account Already verified"), Untouched);
    }
    var otp := OtpCode(roll);
    u := u.(verifyOtp := otp);
    u := u.(verifyOtpExpireAt := Some(env.now + OtpLifetime));
    store.Save(userId, u);
    // building the mail options reads an undeclared `email`
    return Caught(EmailNotDefined);
  }

  // ------------------------------------------------------------ verifyEmail

  /** `expireAt < now` in JavaScript: null compares as 0. */
  function ExpiryValue(expireAt: Option<int>): int
  {
    if expireAt.Some? then expireAt.value else 0
  }

  /** The record a successful verification saves: verified, code and expiry cleared. */
  function Consumed(u: User): User
  {
    u.(isAccountVerified := true, verifyOtp := "", verifyOtpExpireAt := None)
  }

  function VerifyEmailOutcome(db: Db, userId: string, otp: string, env: Env): (o: Outcome)
    requires db.Valid()
    ensures o.db.Valid() && KeepsVerified(db, o.db)
    ensures o.reply.status != 200 ==> o.db == db && !o.reply.success
    ensures o.reply == Fail(400, "UserId and OTP are required") <==> userId == "" || otp == ""
    // a rejected query is caught as a 500
    ensures o.reply == ServerError <==> userId != "" && otp != "" && !env.storeUp
    ensures o.reply == Fail(404, "User not found") <==> userId != "" && otp != "" && env.storeUp && userId !in db.users
    // the code is compared before the expiry, so a wrong late code is reported as invalid
    ensures o.reply == Fail(400, "Invalid OTP") <==>
      userId != "" && otp != "" && env.storeUp && userId in db.users && db.users[userId].verifyOtp != otp
    ensures o.reply == Fail(400, "OTP expired") <==>
      userId != "" && otp != "" && env.storeUp && userId in db.users && db.users[userId].verifyOtp == otp
      && ExpiryValue(db.users[userId].verifyOtpExpireAt) < env.now
    // success: the stored code matched and had not expired (expiry == now is accepted);
    // the record is verified and its code cleared in the same save, nothing else changes
    ensures o.reply.status == 200 <==>
      userId != "" && otp != "" && env.storeUp && userId in db.users && db.users[userId].verifyOtp == otp
      && env.now <= ExpiryValue(db.users[userId].verifyOtpExpireAt)
    ensures o.reply.status == 200 ==>
      && o.reply.success
      && o.db.users.Keys == db.users.Keys
      && o.db.users[userId] == Consumed(db.users[userId])
      && forall other :: other in db.users && other != userId ==> o.db.users[other] == db.users[other]
  {
    if userId == "" || otp == "" then
      Outcome(Fail(400, "UserId and OTP are required"), db)
    else if !env.storeUp then
      Outcome(ServerError, db)
    else if userId !in db.users then
      Outcome(Fail(404, "User not found"), db)
    else
      var u := db.users[userId];
      if u.verifyOtp == "" || u.verifyOtp != otp then
        Outcome(Fail(400, "Invalid OTP"), db)
      else if ExpiryValue(u.verifyOtpExpireAt) < env.now then
        Outcome(Fail(400, "OTP expired"), db)
      else
        Outcome(Reply(200, true, Text("Email verified successfully"), Untouched), db.Replace(userId, Consumed(u)))
  }

  method VerifyEmail(store: UserStore, userId: string, otp: string, env: Env) returns (reply: Reply)
    requires store.Valid()
    modifies store
    ensures store.Valid()
    ensures Outcome(reply, store.Snapshot()) == VerifyEmailOutcome(old(store.Snapshot()), userId, otp, env)
  {
    if userId == "" || otp == "" {
      return Fail(400, "UserId and OTP are required");
    }
    if !env.storeUp {
      return ServerError;
    }
    var user := store.FindById(userId);
    if user.None? {
      return Fail(404, "User not found");
    }
    var u := user.value;
    if u.verifyOtp == "" || u.verifyOtp != otp {
      return Fail(400, "Invalid OTP");
    }
    if ExpiryValue(u.verifyOtpExpireAt) < env.now {
      return Fail(400, "OTP expired");
    }
    u := u.(isAccountVerified := true);
    u := u.(verifyOtp := "");
    u := u.(verifyOtpExpireAt := None);
    store.Save(userId, u);
    return Reply(200, true, Text("Email verified successfully"), Untouched);
  }
}

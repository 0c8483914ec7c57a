/**
 * Properties that relate several handler calls: what a registration makes
 * possible afterwards, and the per-account verification state machine
 * Unverified -> OtpPending -> Verified driven by sendVerifyOtp and verifyEmail.
 */
module AuthLifecycle {

  import opened Bcrypt
  import opened Jwt
  import opened Otp
  import opened UserModel
  import opened AuthController

  datatype Phase = Unverified | OtpPending | Verified

  function PhaseOf(u: User): Phase
  {
    if u.isAccountVerified then Verified
    else if u.verifyOtp != "" then OtpPending
    else Unverified
  }

  /**
   * A stored registration can log in at once with the same password, and with
   * no password that differs from it within the 72 bytes bcrypt reads.
   */
  lemma RegisterThenLogin(db: Db, name: string, email: string, password: string, newId: ObjectId,
                          env: Env, later: Env, guess: string)
    requires db.Valid()
    requires RegisterOutcome(db, name, email, password, newId, env).db != db
    requires later.storeUp && later.jwtSecretSet && guess != ""
    ensures var db' := RegisterOutcome(db, name, email, password, newId, env).db;
      && LoginReply(db', email, password, later) == Reply(200, true, Text("Login successful"), SetToken(Signed(newId)))
      && (Significant(guess) != Significant(password) ==> LoginReply(db', email, guess, later) == InvalidCredentials)
      && (Significant(guess) == Significant(password) ==> LoginReply(db', email, guess, later).status == 200)
  {
  }

  /** Once an email is stored, registering it again is a conflict that changes nothing. */
  lemma RegisterTwiceConflicts(db: Db, name: string, email: string, password: string, newId: ObjectId, env: Env,
                               name2: string, password2: string, newId2: ObjectId, env2: Env)
    requires db.Valid()
    requires RegisterOutcome(db, name, email, password, newId, env).db != db
    requires name2 != "" && password2 != "" && env2.storeUp
    ensures var db' := RegisterOutcome(db, name, email, password, newId, env).db;
      && RegisterOutcome(db', name2, email, password2, newId2, env2).reply == Fail(409, "User already exists")
      && RegisterOutcome(db', name2, email, password2, newId2, env2).db == db'
  {
  }

  /** Registration makes an Unverified account, and leaves every other account as it was. */
  lemma RegisterStartsUnverified(db: Db, name: string, email: string, password: string, newId: ObjectId, env: Env)
    requires db.Valid()
    requires RegisterOutcome(db, name, email, password, newId, env).db != db
    ensures var db' := RegisterOutcome(db, name, email, password, newId, env).db;
      && newId in db'.users && PhaseOf(db'.users[newId]) == Unverified
      && forall id :: id in db.users ==> id in db'.users && db'.users[id] == db.users[id]
  {
  }

  /**
   * sendVerifyOtp moves an unverified account to OtpPending, whatever it was
   * before, and leaves a verified account as it is.
   */
  lemma SendVerifyOtpPhase(db: Db, userId: string, roll: Roll, env: Env)
    requires db.Valid() && userId in db.users
    ensures var db' := SendVerifyOtpOutcome(db, userId, roll, env).db;
      && userId in db'.users
      && PhaseOf(db'.users[userId]) ==
           if env.storeUp && PhaseOf(db.users[userId]) != Verified then OtpPending else PhaseOf(db.users[userId])
  {
  }

  /** verifyEmail only moves OtpPending to Verified; every failure leaves the phase alone. */
  lemma VerifyEmailPhase(db: Db, userId: string, otp: string, env: Env)
    requires db.Valid() && userId in db.users
    ensures var o := VerifyEmailOutcome(db, userId, otp, env);
      && userId in o.db.users
      && (o.reply.success ==> PhaseOf(db.users[userId]) == OtpPending && PhaseOf(o.db.users[userId]) == Verified)
      && (!o.reply.success ==> PhaseOf(o.db.users[userId]) == PhaseOf(db.users[userId]))
  {
  }

  /**
   * A code issued at time t is accepted up to and including t + 24 h and
   * reported expired after; any other code is reported invalid.
   */
  lemma IssuedCodeWindow(db: Db, userId: string, roll: Roll, env: Env, later: Env, otp: string)
    requires db.Valid() && userId != "" && userId in db.users && !db.users[userId].isAccountVerified
    requires env.storeUp && later.storeUp && otp != ""
    ensures var db' := SendVerifyOtpOutcome(db, userId, roll, env).db;
      && (VerifyEmailOutcome(db', userId, OtpCode(roll), later).reply.success <==>
            later.now <= env.now + OtpLifetime)
      && (later.now > env.now + OtpLifetime ==>
            VerifyEmailOutcome(db', userId, OtpCode(roll), later).reply == Fail(400, "OTP expired"))
      && (otp != OtpCode(roll) ==> VerifyEmailOutcome(db', userId, otp, later).reply == Fail(400, "Invalid OTP"))
  {
  }

  /** A second sendVerifyOtp replaces the first code: the old one stops working unless the draw repeats. */
  lemma ResendReplacesCode(db: Db, userId: string, first: Roll, second: Roll, env: Env, env2: Env, later: Env)
    requires db.Valid() && userId != "" && userId in db.users && !db.users[userId].isAccountVerified
    requires env.storeUp && env2.storeUp && later.storeUp && first != second
    ensures var db1 := SendVerifyOtpOutcome(db, userId, first, env).db;
      var db2 := SendVerifyOtpOutcome(db1, userId, second, env2).db;
      VerifyEmailOutcome(db2, userId, OtpCode(first), later).reply == Fail(400, "Invalid OTP")
  {
  }

  /** A consumed code is single-use: the same request again is refused as invalid. */
  lemma VerifyReplayFails(db: Db, userId: string, otp: string, env: Env, later: Env)
    requires db.Valid()
    requires VerifyEmailOutcome(db, userId, otp, env).reply.success
    requires later.storeUp
    ensures var db' := VerifyEmailOutcome(db, userId, otp, env).db;
      && VerifyEmailOutcome(db', userId, otp, later).reply == Fail(400, "Invalid OTP")
      && VerifyEmailOutcome(db', userId, otp, later).db == db'
  {
  }
}

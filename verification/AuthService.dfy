/** Sessions, sign-up and email verification (back-end/src/services/auth.service.ts), and the billing gate
    (back-end/src/trpc/middlewares/auth.middleware.ts). What bcrypt, Google and the mailer answer are parameters.
    A column written with `undefined` is cleared or kept as the query builder decides: `clears` says which. */
module AuthService {
  import opened Common
  import opened Tokens
  import opened Rows
  import opened BillingService

  /** The database a call leaves behind, and how it ends; a call that throws may have written before. */
  datatype Reply<+T> = Reply(db: Db, result: Result<T>)

  datatype SessionTokens = SessionTokens(accessToken: Token, refreshToken: Token)

  function GenerateTokens(userId: string, now: nat): SessionTokens {
    SessionTokens(Sign(userId, Session, Seconds(now), ACCESS_SECONDS),
                  Sign(userId, Session, Seconds(now), REFRESH_SECONDS))
  }

  ghost predicate HasExpiredSubscription(db: Db, userId: string, now: nat) {
    var row := BillingOf(db, userId);
    row.Some? && db.billings[row.value].expiresAt < now
  }

  /** The common end of the three calls that issue tokens. */
  ghost function IssueTokens(db: Db, userId: string, now: nat): Reply<SessionTokens> {
    var downgraded := if HasExpiredSubscription(db, userId, now) then DowngradeToFreeTier(db, userId, now) else Ok(db);
    match downgraded
    case Fail(e) => Reply(db, Fail(e))
    case Ok(db') =>
      var tokens := GenerateTokens(userId, now);
      match UpdateUserById(db', userId, UserPatch(refreshToken := Set(Some(tokens.refreshToken))), now)
      case Fail(e) => Reply(db', Fail(e))
      case Ok(db'') => Reply(db'', Ok(tokens))
  }

  ghost function AuthenticateUser(db: Db, email: string, passwordMatches: bool, now: nat): Reply<SessionTokens> {
    match UserBy(db, HasEmail(email))
    case None => Reply(db, Fail(Unauthorized))
    case Some(userId) => if !passwordMatches then Reply(db, Fail(Unauthorized)) else IssueTokens(db, userId, now)
  }

  datatype GoogleUser = GoogleUser(googleId: string, email: string, fullName: string)

  ghost function AuthenticateWithGoogle(db: Db, g: GoogleUser, passwordHash: string, freshId: string,
                                        now: nat): Reply<SessionTokens> {
    match UserBy(db, HasGoogleId(g.googleId))
    case Some(userId) => IssueTokens(db, userId, now)
    case None =>
      match UserBy(db, HasEmail(g.email))
      case Some(userId) => (
        match UpdateUserById(db, userId, UserPatch(googleId := Set(Some(g.googleId)), emailVerified := Set(true)), now)
        case Fail(e) => Reply(db, Fail(e))
        case Ok(linked) => IssueTokens(linked, userId, now))
      case None =>
        if FreeTier(db.products).None? then Reply(db, Fail(Internal))
        else
          var user := User(g.email, g.fullName, "", 0, passwordHash, Some(g.googleId), None, true, None,
                           Some(FreeTier(db.products).value.id), now);
          match CreateUser(db, freshId, user)
          case Fail(e) => Reply(db, Fail(e))
          case Ok(created) => IssueTokens(created, freshId, now)
  }

  datatype SignupInput = SignupInput(fullName: string, email: string, phone: string, age: int)

  /** The verification email may fail to go out; the call goes on. */
  ghost function RegisterUser(db: Db, input: SignupInput, passwordHash: string, freshId: string,
                              now: nat): Reply<string> {
    if FreeTier(db.products).None? then Reply(db, Fail(Internal))
    else
      var user := User(input.email, input.fullName, input.phone, input.age, passwordHash, None, None, false, None,
                       Some(FreeTier(db.products).value.id), now);
      match CreateUser(db, freshId, user)
      case Fail(e) => Reply(db, Fail(e))
      case Ok(created) =>
        var token := Sign(freshId, EmailVerification, Seconds(now), VERIFICATION_SECONDS);
        match UpdateUserById(created, freshId, UserPatch(emailVerificationToken := Set(Some(token))), now)
        case Fail(e) => Reply(created, Fail(e))
        case Ok(stored) => Reply(stored, Ok(freshId))
  }

  ghost function RefreshAccessToken(db: Db, p: Presented, now: nat): Reply<SessionTokens> {
    if !Verifies(p, now) then Reply(db, Fail(Unauthorized))
    else
      match UserBy(db, HasRefreshToken(p.token))
      case None => Reply(db, Fail(Unauthorized))
      case Some(userId) => IssueTokens(db, userId, now)
  }

  function Undefined<T>(clears: bool): Field<Option<T>> { if clears then Set(None) else Keep }

  /** An update as the last write of a call. */
  ghost function Finally<T>(db: Db, userId: string, patch: UserPatch, now: nat, answer: T): Reply<T> {
    match UpdateUserById(db, userId, patch, now)
    case Fail(e) => Reply(db, Fail(e))
    case Ok(db') => Reply(db', Ok(answer))
  }

  ghost function RevokeUserRefreshToken(db: Db, userId: string, clears: bool, now: nat): Reply<()> {
    Finally(db, userId, UserPatch(refreshToken := Undefined(clears)), now, ())
  }

  ghost function VerifyUserEmail(db: Db, p: Presented, clears: bool, now: nat): Reply<()> {
    if !Verifies(p, now) then Reply(db, Fail(Unauthorized))
    else if !p.token.claims.EmailVerification? || p.token.userId !in db.users then Reply(db, Fail(BadRequest))
    else
      var user := db.users[p.token.userId];
      if user.emailVerificationToken != Some(p.token) then Reply(db, Fail(BadRequest))
      else if user.emailVerified then Reply(db, Ok(()))
      else Finally(db, p.token.userId,
                   UserPatch(emailVerified := Set(true), emailVerificationToken := Undefined(clears)), now, ())
  }

  /** The token is stored before the email goes out, and stays if sending fails. */
  ghost function ResendVerificationEmail(db: Db, userId: string, sent: bool, now: nat): Reply<()> {
    if userId !in db.users then Reply(db, Fail(NotFound))
    else if db.users[userId].emailVerified then Reply(db, Fail(BadRequest))
    else
      var token := Sign(userId, EmailVerification, Seconds(now), VERIFICATION_SECONDS);
      var stored := Finally(db, userId, UserPatch(emailVerificationToken := Set(Some(token))), now, ());
      if stored.result.Ok? && !sent then Reply(stored.db, Fail(Internal)) else stored
  }

  ghost function ResetPassword(db: Db, p: Presented, passwordHash: string, clears: bool, now: nat): Reply<()> {
    if !Verifies(p, now) then Reply(db, Fail(Unauthorized))
    else if !p.token.claims.PasswordReset? || p.token.userId !in db.users then Reply(db, Fail(BadRequest))
    else Finally(db, p.token.userId, UserPatch(passwordHash := Set(passwordHash), refreshToken := Undefined(clears)),
                 now, ())
  }

  // ------------------------------------------------------------- the billing gate

  datatype Gate = Pass | NoBilling | PaymentRequired

  ghost function BillingGate(db: Db, userId: string, now: nat): Gate {
    var row := BillingOf(db, userId);
    if row.None? then NoBilling
    else if db.billings[row.value].expiresAt < now then PaymentRequired
    else Pass
  }
}

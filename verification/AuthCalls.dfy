/** The session and verification calls as they run (back-end/src/services/auth.service.ts,
    back-end/src/services/user.service.ts). */
module AuthCalls {
  import opened Common
  import opened Tokens
  import opened Rows
  import opened Database
  import opened AuthService
  import opened System
  import BillingCalls

  method HasExpiredSubscription(db: Database, userId: string, now: nat) returns (expired: bool)
    requires RowsOwned(db.State())
    ensures expired <==> AuthService.HasExpiredSubscription(db.State(), userId, now)
  {
    var billing := db.GetBillingByUserId(userId);
    expired := billing.Some? && db.billings[billing.value].expiresAt < now;
  }

  /** What the three token-issuing calls do last. */
  method IssueTokens(db: Database, userId: string, now: nat) returns (r: Result<SessionTokens>)
    requires Keyed(db.State())
    modifies db`users
    ensures AuthService.IssueTokens(old(db.State()), userId, now) == Reply(db.State(), r)
  {
    var expired := HasExpiredSubscription(db, userId, now);
    if expired {
      var downgraded := BillingCalls.DowngradeToFreeTier(db, userId, now);
      if downgraded.Fail? {
        return Fail(downgraded.error);
      }
    }
    var tokens := GenerateTokens(userId, now);
    var stored := db.UpdateUserById(userId, UserPatch(refreshToken := Set(Some(tokens.refreshToken))), now);
    r := if stored.Ok? then Ok(tokens) else Fail(stored.error);
  }

  method AuthenticateUser(db: Database, email: string, passwordMatches: bool, now: nat)
    returns (r: Result<SessionTokens>)
    requires Inv(db.State())
    modifies db`users
    ensures AuthService.AuthenticateUser(old(db.State()), email, passwordMatches, now) == Reply(db.State(), r)
    ensures Inv(db.State())
  {
    var user := db.GetUserByEmail(email);
    if user.None? || !passwordMatches {
      return Fail(Unauthorized);
    }
    IssueMoves(db.State(), user.value, now);
    ghost var before := db.State();
    r := IssueTokens(db, user.value, now);
    AccountMovesKeepInv(before, db.State(), now);
  }

  method AuthenticateWithGoogle(db: Database, g: GoogleUser, passwordHash: string, freshId: string, now: nat)
    returns (r: Result<SessionTokens>)
    requires Inv(db.State()) && freshId !in db.users
    modifies db`users
    ensures AuthService.AuthenticateWithGoogle(old(db.State()), g, passwordHash, freshId, now) == Reply(db.State(), r)
    ensures Inv(db.State())
  {
    ghost var before := db.State();
    GoogleMoves(before, g, passwordHash, freshId, now);
    r := GoogleWrites(db, g, passwordHash, freshId, now);
    AccountMovesKeepInv(before, db.State(), now);
  }

  method GoogleWrites(db: Database, g: GoogleUser, passwordHash: string, freshId: string, now: nat)
    returns (r: Result<SessionTokens>)
    requires Keyed(db.State()) && freshId !in db.users
    modifies db`users
    ensures AuthService.AuthenticateWithGoogle(old(db.State()), g, passwordHash, freshId, now) == Reply(db.State(), r)
  {
    hide AuthService.IssueTokens;
    var user := db.GetUserByGoogleId(g.googleId);
    if user.None? {
      user := db.GetUserByEmail(g.email);
      ghost var before := db.State();
      if user.Some? {
        var linked := db.UpdateUserById(user.value,
                                        UserPatch(googleId := Set(Some(g.googleId)), emailVerified := Set(true)), now);
        if linked.Fail? {
          return Fail(linked.error);
        }
        PutKeepsUnique(before, user.value, db.State().users[user.value]);
      } else {
        var free := FreeTier(db.products);
        if free.None? {
          return Fail(Internal);
        }
        var row := User(g.email, g.fullName, "", 0, passwordHash, Some(g.googleId), None, true, None,
                        Some(free.value.id), now);
        var created := db.CreateUser(freshId, row);
        if created.Fail? {
          return Fail(created.error);
        }
        user := Some(freshId);
        PutKeepsUnique(before, freshId, row);
      }
    }
    r := IssueTokens(db, user.value, now);
  }

  method RegisterUser(db: Database, input: SignupInput, passwordHash: string, freshId: string, now: nat)
    returns (r: Result<string>)
    requires Inv(db.State()) && freshId !in db.users
    modifies db`users
    ensures AuthService.RegisterUser(old(db.State()), input, passwordHash, freshId, now) == Reply(db.State(), r)
    ensures Inv(db.State())
  {
    ghost var before := db.State();
    SignupMoves(before, input, passwordHash, freshId, now);
    r := RegisterWrites(db, input, passwordHash, freshId, now);
    AccountMovesKeepInv(before, db.State(), now);
  }

  method RegisterWrites(db: Database, input: SignupInput, passwordHash: string, freshId: string, now: nat)
    returns (r: Result<string>)
    modifies db`users
    ensures AuthService.RegisterUser(old(db.State()), input, passwordHash, freshId, now) == Reply(db.State(), r)
  {
    var free := FreeTier(db.products);
    if free.None? {
      return Fail(Internal);
    }
    var row := User(input.email, input.fullName, input.phone, input.age, passwordHash, None, None, false, None,
                    Some(free.value.id), now);
    var created := db.CreateUser(freshId, row);
    if created.Fail? {
      return Fail(created.error);
    }
    var token := Sign(freshId, EmailVerification, Seconds(now), VERIFICATION_SECONDS);
    var stored := db.UpdateUserById(freshId, UserPatch(emailVerificationToken := Set(Some(token))), now);
    r := if stored.Ok? then Ok(freshId) else Fail(stored.error);
  }

  method RefreshAccessToken(db: Database, p: Presented, now: nat) returns (r: Result<SessionTokens>)
    requires Inv(db.State())
    modifies db`users
    ensures AuthService.RefreshAccessToken(old(db.State()), p, now) == Reply(db.State(), r)
    ensures Inv(db.State())
  {
    if !Verifies(p, now) {
      return Fail(Unauthorized);
    }
    var user := db.GetUserByRefreshToken(p.token);
    if user.None? {
      return Fail(Unauthorized);
    }
    IssueMoves(db.State(), user.value, now);
    ghost var before := db.State();
    r := IssueTokens(db, user.value, now);
    AccountMovesKeepInv(before, db.State(), now);
  }

  method Finally(db: Database, userId: string, updates: UserPatch, now: nat) returns (r: Result<()>)
    modifies db`users
    ensures AuthService.Finally(old(db.State()), userId, updates, now, ()) == Reply(db.State(), r)
  {
    r := db.UpdateUserById(userId, updates, now);
  }

  method RevokeUserRefreshToken(db: Database, userId: string, clears: bool, now: nat) returns (r: Result<()>)
    modifies db`users
    ensures AuthService.RevokeUserRefreshToken(old(db.State()), userId, clears, now) == Reply(db.State(), r)
  {
    r := Finally(db, userId, UserPatch(refreshToken := Undefined(clears)), now);
  }

  method VerifyUserEmail(db: Database, p: Presented, clears: bool, now: nat) returns (r: Result<()>)
    requires Inv(db.State())
    modifies db`users
    ensures AuthService.VerifyUserEmail(old(db.State()), p, clears, now) == Reply(db.State(), r)
    ensures Inv(db.State())
  {
    ghost var before := db.State();
    VerifyMoves(before, p, clears, now);
    AccountMovesKeepInv(before, AuthService.VerifyUserEmail(before, p, clears, now).db, now);
    hide Inv, AuthService.Finally;
    if !Verifies(p, now) {
      return Fail(Unauthorized);
    }
    if !p.token.claims.EmailVerification? || p.token.userId !in db.users {
      return Fail(BadRequest);
    }
    var user := db.users[p.token.userId];
    if user.emailVerificationToken != Some(p.token) {
      return Fail(BadRequest);
    }
    if user.emailVerified {
      return Ok(());
    }
    r := Finally(db, p.token.userId, UserPatch(emailVerified := Set(true), emailVerificationToken := Undefined(clears)),
                 now);
  }

  method ResendVerificationEmail(db: Database, userId: string, sent: bool, now: nat) returns (r: Result<()>)
    requires Inv(db.State())
    modifies db`users
    ensures AuthService.ResendVerificationEmail(old(db.State()), userId, sent, now) == Reply(db.State(), r)
    ensures Inv(db.State())
  {
    ghost var before := db.State();
    ResendMoves(before, userId, sent, now);
    AccountMovesKeepInv(before, AuthService.ResendVerificationEmail(before, userId, sent, now).db, now);
    hide Inv, AuthService.Finally;
    if userId !in db.users {
      return Fail(NotFound);
    }
    if db.users[userId].emailVerified {
      return Fail(BadRequest);
    }
    var token := Sign(userId, EmailVerification, Seconds(now), VERIFICATION_SECONDS);
    r := Finally(db, userId, UserPatch(emailVerificationToken := Set(Some(token))), now);
    if r.Ok? && !sent {
      r := Fail(Internal);
    }
  }

  method ResetPassword(db: Database, p: Presented, passwordHash: string, clears: bool, now: nat) returns (r: Result<()>)
    modifies db`users
    ensures AuthService.ResetPassword(old(db.State()), p, passwordHash, clears, now) == Reply(db.State(), r)
  {
    if !Verifies(p, now) {
      return Fail(Unauthorized);
    }
    if !p.token.claims.PasswordReset? || p.token.userId !in db.users {
      return Fail(BadRequest);
    }
    r := Finally(db, p.token.userId, UserPatch(passwordHash := Set(passwordHash), refreshToken := Undefined(clears)),
                 now);
  }

  method UpdateUserProfile(db: Database, userId: string, u: ProfileUpdates, now: nat) returns (r: Result<()>)
    modifies db`users
    ensures System.UpdateUserProfile(old(db.State()), userId, u, now) == Reply(db.State(), r)
  {
    r := Finally(db, userId, UserPatch(email := u.email, fullName := u.fullName, phone := u.phone, age := u.age), now);
  }

  /** The gate in front of paid procedures (back-end/src/trpc/middlewares/auth.middleware.ts). */
  method BillingGate(db: Database, userId: string, now: nat) returns (gate: Gate)
    requires RowsOwned(db.State())
    ensures gate == AuthService.BillingGate(db.State(), userId, now)
  {
    var billing := db.GetBillingByUserId(userId);
    if billing.None? {
      return NoBilling;
    }
    if db.billings[billing.value].expiresAt < now {
      return PaymentRequired;
    }
    gate := Pass;
  }
}

/** Who gets what: for each account call, exactly when it succeeds, which row it changes and to what. */
module CallOutcomes {
  import opened Common
  import opened Tokens
  import opened Rows
  import opened BillingService
  import opened WebhookEffects
  import opened AuthService
  import opened EmailService
  import opened System
  import opened TokenTheorems

  /** The expired subscription of `u` cannot be downgraded. */
  ghost predicate Stuck(db: Db, u: string, now: nat) {
    HasExpiredSubscription(db, u, now) && FreeTier(db.products).None?
  }

  /** The two databases differ at most in the row of `u`. */
  ghost predicate OnlyRow(db: Db, db': Db, u: string) {
    && db'.products == db.products && db'.billings == db.billings
    && (forall v :: v != u ==> (v in db'.users <==> v in db.users))
    && (forall v :: v != u && v in db.users ==> db'.users[v] == db.users[v])
  }

  lemma PutIsOnlyRow(db: Db, u: string, user: User)
    ensures OnlyRow(db, PutUser(db, u, user), u)
  {
  }

  lemma OnlyRowIsPut(db: Db, db': Db, u: string)
    requires OnlyRow(db, db', u) && u in db'.users
    ensures db' == PutUser(db, u, db'.users[u])
  {
    assert db'.users == PutUser(db, u, db'.users[u]).users;
  }

  /** Login succeeds exactly for the email of a user whose password matches and who can be downgraded if expired;
      it then changes that user's product, token and time only, and a failure changes nothing. */
  lemma LoginExactly(db: Db, email: string, passwordMatches: bool, now: nat)
    requires Inv(db)
    ensures var reply := AuthenticateUser(db, email, passwordMatches, now);
            && (reply.result.Ok? <==>
                passwordMatches && exists u :: u in db.users && db.users[u].email == email && !Stuck(db, u, now))
            && (reply.result.Fail? ==> reply.db == db)
    ensures var reply := AuthenticateUser(db, email, passwordMatches, now);
            reply.result.Ok? ==>
              var u := reply.result.value.refreshToken.userId;
              u in db.users && db.users[u].email == email && reply.result.value == GenerateTokens(u, now)
              && reply.db == PutUser(db, u, Issued(db, u, now))
  {
    var r := UserBy(db, HasEmail(email));
    AsUnique(db);
    if r.Some? {
      var u := r.value;
      assert db.users[u].email == email;
      forall v | v in db.users && db.users[v].email == email ensures v == u { }
      IssueIsOneWrite(db, u, now);
    } else {
      forall v | v in db.users ensures db.users[v].email != email {
        assert !HasEmail(email)(db.users[v]);
      }
    }
    hide Inv, UniqueUsers, IssueTokens, HasExpiredSubscription;
  }

  /** A verification link is accepted exactly when it is live, of its kind, and the pending token of the user whom it
      names; that user is then verified, whatever becomes of the pending token, and nobody else's row changes. */
  lemma VerificationExactly(db: Db, p: Presented, clears: bool, now: nat)
    requires Inv(db)
    ensures var reply := VerifyUserEmail(db, p, clears, now);
            && (reply.result.Ok? <==>
                  && p.Signed? && now / 1000 < p.token.exp && p.token.claims == EmailVerification
                  && p.token.userId in db.users && db.users[p.token.userId].emailVerificationToken == Some(p.token))
            && (reply.result.Fail? ==>
                  && reply.db == db
                  && reply.result.error == if p.Signed? && now / 1000 < p.token.exp then BadRequest else Unauthorized)
            && (reply.result.Ok? ==>
                  var u := p.token.userId;
                  && OnlyRow(db, reply.db, u) && u in reply.db.users
                  && reply.db.users[u] ==
                       if db.users[u].emailVerified then db.users[u]
                       else db.users[u].(emailVerified := true, updatedAt := now,
                                         emailVerificationToken := if clears then None else Some(p.token)))
  {
    AsUnique(db);
    hide Inv, UniqueUsers, Clashes;
    if p.Signed? && p.token.userId in db.users {
      var u := p.token.userId;
      NoClash(db, u, PatchUser(db.users[u],
                               UserPatch(emailVerified := Set(true), emailVerificationToken := Undefined(clears)),
                                   now));
    }
  }

  /** A reset succeeds exactly with a live reset token of an existing user, whose password hash it sets; it touches
      nobody else. */
  lemma ResetExactly(db: Db, p: Presented, passwordHash: string, clears: bool, now: nat)
    requires Inv(db)
    ensures var reply := ResetPassword(db, p, passwordHash, clears, now);
            && (reply.result.Ok? <==>
                  && p.Signed? && now / 1000 < p.token.exp
                  && p.token.claims == PasswordReset && p.token.userId in db.users)
            && (reply.result.Fail? ==>
                  && reply.db == db
                  && reply.result.error == if p.Signed? && now / 1000 < p.token.exp then BadRequest else Unauthorized)
            && (reply.result.Ok? ==>
                  var u := p.token.userId;
                  && OnlyRow(db, reply.db, u) && u in reply.db.users
                  && reply.db.users[u] == db.users[u].(passwordHash := passwordHash, updatedAt := now,
                       refreshToken := if clears then None else db.users[u].refreshToken))
  {
    AsUnique(db);
    hide Inv, UniqueUsers, Clashes;
    if p.Signed? && p.token.userId in db.users {
      var u := p.token.userId;
      NoClash(db, u, PatchUser(db.users[u],
                               UserPatch(passwordHash := Set(passwordHash), refreshToken := Undefined(clears)), now));
    }
  }

  /** Sign-up succeeds exactly when there is a free tier and nobody has the email. The new user is unverified, on the
      free tier, without a session, with a verification link pending; a failure changes nothing. */
  lemma SignupExactly(db: Db, input: SignupInput, hash: string, freshId: string, now: nat)
    requires Inv(db) && freshId !in db.users
    ensures var reply := RegisterUser(db, input, hash, freshId, now);
            && (reply.result.Ok? <==>
                FreeTier(db.products).Some? && forall u :: u in db.users ==> db.users[u].email != input.email)
            && (reply.result.Fail? ==> reply == Reply(db, Fail(Internal)))
            && (reply.result.Ok? ==>
                  && reply.result.value == freshId && OnlyRow(db, reply.db, freshId) && freshId in reply.db.users
                  && var link := Token(freshId, EmailVerification, now / 1000, now / 1000 + 1800);
                     reply.db.users[freshId] ==
                       User(input.email, input.fullName, input.phone, input.age, hash, None, None, false, Some(link),
                            Some(FreeTier(db.products).value.id), now))
  {
    hide Inv, UniqueUsers, Clashes, FreeTier;
    AsUnique(db);
    var free := FreeTier(db.products);
    if free.Some? {
      var user := User(input.email, input.fullName, input.phone, input.age, hash, None, None, false, None,
                       Some(free.value.id), now);
      EmailClash(db, freshId, user);
      if !Clashes(db, freshId, user) {
        var link := Sign(freshId, EmailVerification, Seconds(now), VERIFICATION_SECONDS);
        PutKeepsUnique(db, freshId, user);
        NoClash(PutUser(db, freshId, user), freshId, user.(emailVerificationToken := Some(link)));
      }
    }
  }

  lemma EmailClash(db: Db, freshId: string, user: User)
    requires freshId !in db.users && user.googleId.None?
    ensures Clashes(db, freshId, user) <==> exists u :: u in db.users && db.users[u].email == user.email
  {
  }

  /** The row that a Google login is for: the one with the Google id; without one, the one with the email; without
      either, a new one. */
  ghost function GoogleRow(db: Db, g: GoogleUser, freshId: string): string {
    var known, byEmail := UserBy(db, HasGoogleId(g.googleId)), UserBy(db, HasEmail(g.email));
    if known.Some? then known.value else if byEmail.Some? then byEmail.value else freshId
  }

  /** That row once the login has found, linked or created it. */
  ghost function GoogleUserRow(db: Db, g: GoogleUser, hash: string, freshId: string, now: nat): User {
    var u := GoogleRow(db, g, freshId);
    if u !in db.users then
      var product := if FreeTier(db.products).Some? then Some(FreeTier(db.products).value.id) else None;
      User(g.email, g.fullName, "", 0, hash, Some(g.googleId), None, true, None, product, now)
    else if db.users[u].googleId == Some(g.googleId) then db.users[u]
    else db.users[u].(googleId := Some(g.googleId), emailVerified := true, updatedAt := now)
  }

  lemma GoogleRowFits(db: Db, g: GoogleUser, hash: string, freshId: string, now: nat)
    requires Inv(db) && freshId !in db.users
    ensures !Clashes(db, GoogleRow(db, g, freshId), GoogleUserRow(db, g, hash, freshId, now))
    ensures GoogleUserRow(db, g, hash, freshId, now).googleId == Some(g.googleId)
  {
    var known, byEmail := UserBy(db, HasGoogleId(g.googleId)), UserBy(db, HasEmail(g.email));
    AsUnique(db);
    hide Inv;
    if known.Some? {
      NoClash(db, known.value, db.users[known.value]);
    } else {
      assert forall v :: v in db.users ==> !HasGoogleId(g.googleId)(db.users[v]);
      assert byEmail.None? ==> forall v :: v in db.users ==> !HasEmail(g.email)(db.users[v]);
    }
  }

  lemma GoogleRowWritten(db: Db, g: GoogleUser, hash: string, freshId: string, now: nat)
    requires Inv(db) && freshId !in db.users
    ensures Keyed(PutUser(db, GoogleRow(db, g, freshId), GoogleUserRow(db, g, hash, freshId, now)))
  {
    GoogleRowFits(db, g, hash, freshId, now);
    PutKeepsUnique(db, GoogleRow(db, g, freshId), GoogleUserRow(db, g, hash, freshId, now));
    hide GoogleRow, GoogleUserRow, Clashes;
  }

  lemma GoogleIsWriteThenIssue(db: Db, g: GoogleUser, hash: string, freshId: string, now: nat)
    requires Inv(db) && freshId !in db.users
    ensures var u := GoogleRow(db, g, freshId);
            AuthenticateWithGoogle(db, g, hash, freshId, now) ==
              if u !in db.users && FreeTier(db.products).None? then Reply(db, Fail(Internal))
              else IssueTokens(PutUser(db, u, GoogleUserRow(db, g, hash, freshId, now)), u, now)
  {
    var known, u, row := UserBy(db, HasGoogleId(g.googleId)), GoogleRow(db, g, freshId),
        GoogleUserRow(db, g, hash, freshId, now);
    GoogleRowFits(db, g, hash, freshId, now);
    assert known.None? && u in db.users ==> !HasGoogleId(g.googleId)(db.users[u]);
    hide Inv, Clashes, IssueTokens;
    assert known.Some? ==> PutUser(db, u, row) == db;
  }

  /** A Google login succeeds exactly when its user is new and there is a free tier, or is known and can be downgraded
      if expired. Then that row, found, linked or created, holds the Google id and the new refresh token, and no other
      changed. */
  lemma GoogleExactly(db: Db, g: GoogleUser, hash: string, freshId: string, now: nat)
    requires Inv(db) && freshId !in db.users
    ensures var reply, u := AuthenticateWithGoogle(db, g, hash, freshId, now), GoogleRow(db, g, freshId);
            var db' := PutUser(db, u, GoogleUserRow(db, g, hash, freshId, now));
            && (reply.result.Ok? <==> if u in db.users then !Stuck(db, u, now) else FreeTier(db.products).Some?)
            && (reply.result.Ok? ==> reply == Reply(PutUser(db, u, Issued(db', u, now)), Ok(GenerateTokens(u, now))))
            && (reply.result.Fail? ==> reply.db == if u in db.users then db' else db)
            && OnlyRow(db, reply.db, u)
  {
    var u, row := GoogleRow(db, g, freshId), GoogleUserRow(db, g, hash, freshId, now);
    var db' := PutUser(db, u, row);
    GoogleRowFits(db, g, hash, freshId, now);
    GoogleIsWriteThenIssue(db, g, hash, freshId, now);
    AsUnique(db);
    assert Keyed(db) && (u !in db.users ==> u == freshId);
    hide *;
    PutKeepsUnique(db, u, row);
    PutTwice(db, u, row, Issued(db', u, now));
    IssueIsOneWrite(db', u, now);
    PutIsOnlyRow(db, u, row);
    PutIsOnlyRow(db, u, Issued(db', u, now));
    assert HasExpiredSubscription(db', u, now) == HasExpiredSubscription(db, u, now) by { SameExpiry(db, db', u, now); }
    if u !in db.users {
      NoRowYet(db, freshId, now);
    }
    assert Stuck(db, u, now)
        == (HasExpiredSubscription(db, u, now) && FreeTier(db.products).None?) by { StuckIs(db, u, now); }
  }

  lemma StuckIs(db: Db, u: string, now: nat)
    ensures Stuck(db, u, now) == (HasExpiredSubscription(db, u, now) && FreeTier(db.products).None?)
  {
  }

  /** A key that is new to the users has no billing row. */
  lemma NoRowYet(db: Db, freshId: string, now: nat)
    requires Keyed(db) && freshId !in db.users
    ensures !HasExpiredSubscription(db, freshId, now)
  {
  }

  /** A change is granted exactly to an existing user for another address that nobody has, once the code is sent; what
      it stores does not depend on the sending. */
  lemma RequestExactly(db: Db, u: string, newEmail: string, code: string, sent: bool, now: nat)
    requires Inv(db)
    ensures var reply := RequestEmailChange(db, u, newEmail, code, sent, now);
            var stores := u in db.users && forall v :: v in db.users ==> db.users[v].email != newEmail;
            var token := Token(u, EmailChange(code, newEmail, 0), now / 1000, now / 1000 + 900);
            && (reply.result.Ok? <==> stores && sent)
            && (!stores ==>
                  reply == Reply(db, Fail(if u !in db.users then NotFound
                                          else if db.users[u].email == newEmail then BadRequest else Conflict)))
            && (stores && !sent ==> reply.result == Fail(Internal))
            && (stores ==>
                  reply.db == PutUser(db, u, db.users[u].(updatedAt := now, emailVerificationToken := Some(token))))
  {
    var r := UserBy(db, HasEmail(newEmail));
    AsUnique(db);
    assert r.None? ==> forall v :: v in db.users ==> !HasEmail(newEmail)(db.users[v]);
    hide Inv, UniqueUsers, Clashes;
    if u in db.users {
      NoClash(db, u, PatchUser(db.users[u], UserPatch(emailVerificationToken :=
                Set(Some(Sign(u, EmailChange(code, newEmail, 0), Seconds(now), CHANGE_SECONDS)))), now));
    }
  }

  /** Logout of an existing user always succeeds and changes their row only, in the refresh token and the time. */
  lemma LogoutExactly(db: Db, u: string, clears: bool, now: nat)
    requires Inv(db)
    ensures var reply := RevokeUserRefreshToken(db, u, clears, now);
            && (reply.result.Ok? <==> u in db.users)
            && (reply.result.Fail? ==> reply == Reply(db, Fail(Internal)))
            && (reply.result.Ok? ==>
                  reply.db == PutUser(db, u, db.users[u].(updatedAt := now,
                                refreshToken := if clears then None else db.users[u].refreshToken)))
  {
    AsUnique(db);
    hide Inv, UniqueUsers, Clashes;
    if u in db.users {
      NoClash(db, u, PatchUser(db.users[u], UserPatch(refreshToken := Undefined(clears)), now));
    }
  }

  /** A profile update succeeds exactly for an existing user who takes nobody else's email; it leaves the password, the
      tokens, the product and the verified mark as they are, and everybody else. */
  lemma ProfileExactly(db: Db, u: string, f: ProfileUpdates, now: nat)
    requires Inv(db)
    ensures var reply := UpdateUserProfile(db, u, f, now);
            && (reply.result.Ok? <==>
                && u in db.users
                && (f.email.Set? ==> forall v :: v in db.users && v != u ==> db.users[v].email != f.email.value))
            && (reply.result.Fail? ==> reply == Reply(db, Fail(Internal)))
            && (reply.result.Ok? ==>
                  && OnlyRow(db, reply.db, u) && u in reply.db.users
                  && var a, b := db.users[u], reply.db.users[u];
                     && b == a.(email := b.email, fullName := b.fullName, phone := b.phone, age := b.age,
                                updatedAt := now)
                     && b.email == (if f.email.Set? then f.email.value else a.email)
                     && b.fullName == (if f.fullName.Set? then f.fullName.value else a.fullName)
                     && b.phone == (if f.phone.Set? then f.phone.value else a.phone)
                     && b.age == (if f.age.Set? then f.age.value else a.age))
  {
    AsUnique(db);
    if u in db.users {
      var b := PatchUser(db.users[u],
                         UserPatch(email := f.email, fullName := f.fullName, phone := f.phone, age := f.age), now);
      assert b.googleId == db.users[u].googleId;
      assert Clashes(db, u, b) <==> exists v :: v in db.users && v != u && db.users[v].email == b.email;
    }
    hide Inv, UniqueUsers, Clashes;
  }

  /** A verification email is sent again exactly to an existing unverified user; the new link is pending even if sending
      fails. */
  lemma ResendExactly(db: Db, u: string, sent: bool, now: nat)
    requires Inv(db)
    ensures var reply := ResendVerificationEmail(db, u, sent, now);
            var stores := u in db.users && !db.users[u].emailVerified;
            var token := Token(u, EmailVerification, now / 1000, now / 1000 + 1800);
            && (reply.result.Ok? <==> stores && sent)
            && (!stores ==> reply == Reply(db, Fail(if u !in db.users then NotFound else BadRequest)))
            && (stores && !sent ==> reply.result == Fail(Internal))
            && (stores ==>
                  reply.db == PutUser(db, u, db.users[u].(updatedAt := now, emailVerificationToken := Some(token))))
  {
    AsUnique(db);
    hide Inv, UniqueUsers, Clashes;
    if u in db.users && !db.users[u].emailVerified {
      ResendStores(db, u, sent, now);
    }
  }

  // ------------------------------------------------------------- what a call does to a user's session and product

  /** The call asks for tokens for `u`, with what it takes to get them. */
  ghost predicate IssuesTo(db: Db, c: Call, u: string) {
    match c.action
    case Login(email, matches) => matches && u in db.users && db.users[u].email == email
    case GoogleLogin(google, _) => GoogleRow(db, google, c.freshId) == u
    case Refresh(p) => Verifies(p, c.now) && u in db.users && db.users[u].refreshToken == Some(p.token)
    case _ => false
  }

  /** The call may clear the stored refresh token of `u`. */
  predicate EndsSession(c: Call, u: string) {
    match c.action
    case Logout(v) => c.clears && v == u
    case ResetPasswordWith(p, _) => c.clears && p.Signed? && p.token.userId == u
    case _ => false
  }

  ghost predicate SameToken(before: Option<Token>, after: Option<Token>, ends: bool) {
    after == before || (ends && after.None?)
  }

  /** The user is as before as far as product and session go; `ends` says that the session may have been cleared. */
  ghost predicate SameSession(db: Db, db': Db, u: string, ends: bool) {
    && u in db.users && u in db'.users && db'.billings == db.billings && db'.products == db.products
    && db'.users[u].currentProductId == db.users[u].currentProductId
    && SameToken(db.users[u].refreshToken, db'.users[u].refreshToken, ends)
  }

  lemma OnlyRowSameSession(db: Db, db': Db, v: string, u: string, ends: bool)
    requires OnlyRow(db, db', v) && u in db.users
    requires v == u ==> u in db'.users && db'.users[u].currentProductId == db.users[u].currentProductId
    requires v == u ==> SameToken(db.users[u].refreshToken, db'.users[u].refreshToken, ends)
    ensures SameSession(db, db', u, ends)
  {
  }

  lemma PutSameSession(db: Db, v: string, user: User, u: string, ends: bool)
    requires u in db.users
    requires v == u ==> user.currentProductId == db.users[u].currentProductId
    requires v == u ==> SameToken(db.users[u].refreshToken, user.refreshToken, ends)
    ensures SameSession(db, PutUser(db, v, user), u, ends)
  {
  }

  lemma IdleSameSession(db: Db, u: string, ends: bool)
    requires u in db.users
    ensures SameSession(db, db, u, ends)
  {
  }

  /** An account call that issues no tokens to a user leaves the user's product, and only a logout or a reset of the
      user touches the stored refresh token. */
  lemma OtherCallsKeepSession(db: Db, c: Call, u: string)
    requires Inv(db) && Allowed(db, c) && !c.action.Webhook? && u in db.users && !IssuesTo(db, c, u)
    ensures SameSession(db, Step(db, c), u, EndsSession(c, u))
  {
    if c.action.Login? || c.action.GoogleLogin? || c.action.Refresh? {
      ForeignLogin(db, c, u);
      hide SameSession, Step;
    } else if c.action.VerifyChange? {
      ChangeKeepsSession(db, c.action.userId, c.action.code, c.action.order, c.now, u);
      hide SameSession, VerifyEmailChange;
    } else {
      hide SameSession, Step, Inv, Possible;
      OtherOutcome(db, c, u);
    }
  }

  lemma ForeignLogin(db: Db, c: Call, u: string)
    requires Inv(db) && Allowed(db, c) && u in db.users && !IssuesTo(db, c, u)
    requires c.action.Login? || c.action.GoogleLogin? || c.action.Refresh?
    ensures SameSession(db, Step(db, c), u, false)
  {
    IdleSameSession(db, u, false);
    match c.action
    case Login(email, matches) =>
      LoginExactly(db, email, matches, c.now);
      hide Inv, AuthenticateUser, SameSession;
      var reply := AuthenticateUser(db, email, matches, c.now);
      if reply.result.Ok? {
        var v := reply.result.value.refreshToken.userId;
        PutSameSession(db, v, Issued(db, v, c.now), u, false);
      }
    case GoogleLogin(google, hash) =>
      GoogleExactly(db, google, hash, c.freshId, c.now);
      hide Inv, AuthenticateWithGoogle, GoogleRow, SameSession, OnlyRow;
      OnlyRowSameSession(db, Step(db, c), GoogleRow(db, google, c.freshId), u, false);
    case Refresh(p) =>
      RefreshOutcome(db, p, c.now);
      hide Inv, RefreshAccessToken, SameSession;
      if Step(db, c) != db {
        PutSameSession(db, p.token.userId, Issued(db, p.token.userId, c.now), u, false);
      }
  }

  lemma RefreshOutcome(db: Db, p: Presented, now: nat)
    requires Inv(db)
    ensures var reply := RefreshAccessToken(db, p, now);
            && (reply.result.Fail? ==> reply.db == db)
            && (reply.result.Ok? ==>
                  var u := p.token.userId;
                  && Verifies(p, now) && u in db.users && db.users[u].refreshToken == Some(p.token)
                  && reply.db == PutUser(db, u, Issued(db, u, now)))
  {
    if p.Signed? {
      assert p == Signed(p.token);
      if RefreshAccessToken(db, p, now).result.Ok? {
        RedeemedRow(db, p.token, now);
      } else {
        FailedRefresh(db, p.token, now);
      }
    }
    hide Inv, IssueTokens;
  }

  lemma ChangeKeepsSession(db: Db, v: string, code: string, order: Order, now: nat, u: string)
    requires Inv(db) && u in db.users
    ensures SameSession(db, VerifyEmailChange(db, v, code, order, now).db, u, false)
  {
    IdleSameSession(db, u, false);
    if v in db.users && Refusal(db.users[v].emailVerificationToken, now).None? {
      AsUnique(db);
      CodeWrites(db, v, code, order, now);
      hide VerifyEmailChange, Inv, UniqueUsers, SameSession;
      PutSameSession(db, v, RowAfterCode(db, v, code, order, now), u, false);
    }
    hide SameSession, StoreChecked, ChangeEmail;
  }

  lemma OtherOutcome(db: Db, c: Call, u: string)
    requires Inv(db) && Allowed(db, c) && u in db.users && !c.action.Webhook?
    requires !c.action.Login? && !c.action.GoogleLogin? && !c.action.Refresh? && !c.action.VerifyChange?
    ensures SameSession(db, Step(db, c), u, EndsSession(c, u))
  {
    hide SameSession, OnlyRow, Inv, RegisterUser, RevokeUserRefreshToken, VerifyUserEmail, ResendVerificationEmail,
         Possible;
    IdleSameSession(db, u, EndsSession(c, u));
    match c.action
    case Signup(input, hash) =>
      SignupExactly(db, input, hash, c.freshId, c.now);
      hide RegisterUser;
      if Step(db, c) != db {
        OnlyRowSameSession(db, Step(db, c), c.freshId, u, false);
      }
    case Logout(v) =>
      LogoutExactly(db, v, c.clears, c.now);
      hide RevokeUserRefreshToken;
      if Step(db, c) != db {
        PutSameSession(db, v, Step(db, c).users[v], u, EndsSession(c, u));
      }
    case VerifyEmail(p) =>
      VerificationExactly(db, p, c.clears, c.now);
      hide VerifyUserEmail;
      if Step(db, c) != db {
        OnlyRowSameSession(db, Step(db, c), p.token.userId, u, false);
      }
    case ResendVerification(v) =>
      ResendExactly(db, v, c.sent, c.now);
      hide ResendVerificationEmail;
      if Step(db, c) != db {
        PutSameSession(db, v, Step(db, c).users[v], u, false);
      }
    case _ => LaterOutcome(db, c, u);
  }

  lemma LaterOutcome(db: Db, c: Call, u: string)
    requires Inv(db) && Allowed(db, c) && u in db.users
    requires c.action.ResetPasswordWith? || c.action.RequestChange? || c.action.UpdateProfile?
    ensures SameSession(db, Step(db, c), u, EndsSession(c, u))
  {
    hide SameSession, OnlyRow, Inv, UpdateUserProfile, RequestEmailChange, ResetPassword, Possible;
    IdleSameSession(db, u, EndsSession(c, u));
    match c.action
    case ResetPasswordWith(p, hash) =>
      ResetExactly(db, p, hash, c.clears, c.now);
      hide ResetPassword;
      if Step(db, c) != db {
        OnlyRowSameSession(db, Step(db, c), p.token.userId, u, EndsSession(c, u));
      }
    case RequestChange(v, newEmail, code) => RequestOutcome(db, v, newEmail, code, c.sent, c.now, u);
    case UpdateProfile(v, f) => ProfileOutcome(db, v, f, c.now, u);
  }

  lemma RequestOutcome(db: Db, v: string, newEmail: string, code: string, sent: bool, now: nat, u: string)
    requires Inv(db) && u in db.users
    ensures SameSession(db, RequestEmailChange(db, v, newEmail, code, sent, now).db, u, false)
  {
    hide Inv, RequestEmailChange, SameSession;
    IdleSameSession(db, u, false);
    RequestExactly(db, v, newEmail, code, sent, now);
    var db' := RequestEmailChange(db, v, newEmail, code, sent, now).db;
    if db' != db {
      PutSameSession(db, v, db'.users[v], u, false);
    }
  }

  lemma ProfileOutcome(db: Db, v: string, f: ProfileUpdates, now: nat, u: string)
    requires Inv(db) && u in db.users
    ensures SameSession(db, UpdateUserProfile(db, v, f, now).db, u, false)
  {
    hide Inv, UpdateUserProfile, SameSession, OnlyRow;
    IdleSameSession(db, u, false);
    ProfileExactly(db, v, f, now);
    if UpdateUserProfile(db, v, f, now).result.Ok? {
      OnlyRowSameSession(db, UpdateUserProfile(db, v, f, now).db, v, u, false);
    }
  }

  /** A call that issues tokens to an existing user moves the product exactly when the subscription has expired and
      there is a free tier to move to. */
  lemma IssuingCallsProduct(db: Db, c: Call, u: string)
    requires Inv(db) && Allowed(db, c) && u in db.users && IssuesTo(db, c, u)
    ensures var db' := Step(db, c);
            && u in db'.users && db'.billings == db.billings && db'.products == db.products
            && db'.users[u].currentProductId ==
                 if HasExpiredSubscription(db, u, c.now) && FreeTier(db.products).Some?
                 then Some(FreeTier(db.products).value.id) else db.users[u].currentProductId
  {
    match c.action
    case Login(email, matches) =>
      LoginExactly(db, email, matches, c.now);
      OneByEmail(db);
      hide Inv, AuthenticateUser, HasExpiredSubscription;
    case GoogleLogin(google, hash) =>
      GoogleExactly(db, google, hash, c.freshId, c.now);
      SameExpiry(db, PutUser(db, u, GoogleUserRow(db, google, hash, c.freshId, c.now)), u, c.now);
      hide Inv, AuthenticateWithGoogle, GoogleRow, HasExpiredSubscription;
    case Refresh(p) =>
      RefreshOutcome(db, p, c.now);
      assert p == Signed(p.token) && OwnTokens(u, db.users[u]);
      RefreshesWhenStored(db, p.token, c.now);
      hide Inv, RefreshAccessToken, HasExpiredSubscription;
  }

  lemma OneByEmail(db: Db)
    requires Inv(db)
    ensures forall u, v :: u in db.users && v in db.users && db.users[u].email == db.users[v].email ==> u == v
  {
  }

  /** A webhook leaves every session. */
  lemma WebhookKeepsSessions(db: Db, d: Delivery, u: string)
    requires Inv(db) && Possible(db, d) && u in db.users
    ensures u in Delivered(db, d).users && Delivered(db, d).users[u].refreshToken == db.users[u].refreshToken
  {
    assert Keyed(db);
    hide *;
    WebhookIsOneWrite(db, d);
    WriteKeepsSession(db, EffectOf(db, d), d.now, u);
  }

  lemma WriteKeepsSession(db: Db, e: Effect, now: nat, u: string)
    requires u in db.users
    ensures u in ApplyEffect(db, e, now).users
    ensures ApplyEffect(db, e, now).users[u].refreshToken == db.users[u].refreshToken
  {
  }
}

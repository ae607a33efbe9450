/** The server as a state machine: every call that writes, and the rules that all of them keep. */
module System {
  import opened Common
  import opened Tokens
  import opened Rows
  import opened BillingService
  import opened WebhookEffects
  import opened Subscriptions
  import opened AuthService
  import opened EmailService

  /** The profile fields a user may change; the others are kept (back-end/src/services/user.service.ts). */
  datatype ProfileUpdates = ProfileUpdates(email: Field<string>, fullName: Field<string>, phone: Field<string>,
                                           age: Field<int>)

  ghost function UpdateUserProfile(db: Db, userId: string, u: ProfileUpdates, now: nat): Reply<()> {
    Finally(db, userId, UserPatch(email := u.email, fullName := u.fullName, phone := u.phone, age := u.age), now, ())
  }

  datatype Action =
    | Signup(input: SignupInput, passwordHash: string)
    | GoogleLogin(google: GoogleUser, passwordHash: string)
    | Login(email: string, passwordMatches: bool)
    | Refresh(token: Presented)
    | Logout(userId: string)
    | VerifyEmail(token: Presented)
    | ResendVerification(userId: string)
    | ResetPasswordWith(token: Presented, passwordHash: string)
    | RequestChange(userId: string, newEmail: string, code: string)
    | VerifyChange(userId: string, code: string, order: Order)
    | UpdateProfile(userId: string, updates: ProfileUpdates)
    | Webhook(event: Event, row: Option<string>)

  /** One call: when it runs, the key a new row would get, and what the mailer and the query builder do. */
  datatype Call = Call(action: Action, now: nat, freshId: string, sent: bool, clears: bool)

  ghost predicate Allowed(db: Db, c: Call) {
    && c.freshId !in db.users
    && (c.action.Webhook? ==> Possible(db, Delivery(c.action.event, c.now, c.freshId, c.action.row)))
  }

  ghost function Step(db: Db, c: Call): Db {
    match c.action
    case Signup(input, hash) => RegisterUser(db, input, hash, c.freshId, c.now).db
    case GoogleLogin(google, hash) => AuthenticateWithGoogle(db, google, hash, c.freshId, c.now).db
    case Login(email, matches) => AuthenticateUser(db, email, matches, c.now).db
    case Refresh(token) => RefreshAccessToken(db, token, c.now).db
    case Logout(userId) => RevokeUserRefreshToken(db, userId, c.clears, c.now).db
    case VerifyEmail(token) => VerifyUserEmail(db, token, c.clears, c.now).db
    case ResendVerification(userId) => ResendVerificationEmail(db, userId, c.sent, c.now).db
    case ResetPasswordWith(token, hash) => ResetPassword(db, token, hash, c.clears, c.now).db
    case RequestChange(userId, newEmail, code) => RequestEmailChange(db, userId, newEmail, code, c.sent, c.now).db
    case VerifyChange(userId, code, order) => VerifyEmailChange(db, userId, code, order, c.now).db
    case UpdateProfile(userId, updates) => UpdateUserProfile(db, userId, updates, c.now).db
    case Webhook(event, row) => Delivered(db, Delivery(event, c.now, c.freshId, row))
  }

  ghost function Run(db: Db, calls: seq<Call>): Db
    decreases |calls|
  {
    if calls == [] then db else Run(Step(db, calls[0]), calls[1..])
  }

  /** The environment plays its part, and the clock, which reads `now` before the run, never goes back. */
  ghost predicate AllowedRun(db: Db, now: nat, calls: seq<Call>)
    decreases |calls|
  {
    calls != [] ==>
      && now <= calls[0].now && Allowed(db, calls[0])
      && AllowedRun(Step(db, calls[0]), calls[0].now, calls[1..])
  }

  /** What the clock reads after a run. */
  ghost function Clock(now: nat, calls: seq<Call>): nat
    decreases |calls|
  {
    if calls == [] then now else Clock(calls[0].now, calls[1..])
  }

  // ------------------------------------------------------------- rules

  ghost predicate Inv(db: Db) {
    Keyed(db) && Entitled(db) && TokensOwned(db)
  }

  // ------------------------------------------------------------- what one call may do to a user's row

  ghost predicate RefreshTokenMoves(u: string, a: User, b: User, now: nat) {
    b.refreshToken in {a.refreshToken, None, Some(GenerateTokens(u, now).refreshToken)}
  }

  ghost predicate PendingTokenMoves(u: string, a: User, b: User, now: nat) {
    || b.emailVerificationToken in {a.emailVerificationToken, None}
    || (b.emailVerificationToken.Some? && NewPendingToken(u, b.emailVerificationToken.value, now))
    || (Refusal(a.emailVerificationToken, now).None?
        && b.emailVerificationToken == Some(Reissue(a.emailVerificationToken.value, now)))
  }

  /** A pending token as a verification email or a requested change stores it. */
  ghost predicate NewPendingToken(u: string, t: Token, now: nat) {
    && OwnPendingToken(u, t) && t.iat == Seconds(now)
    && (t.claims.EmailChange? ==> t.claims.attempts == 0 && t.exp == t.iat + CHANGE_SECONDS)
  }

  ghost predicate UserMoves(u: string, a: User, b: User, now: nat) {
    && (a.emailVerified ==> b.emailVerified)
    && RefreshTokenMoves(u, a, b, now)
    && PendingTokenMoves(u, a, b, now)
  }

  /** A row that a call adds: on the free tier, with tokens of this moment if any. */
  ghost predicate NewUser(db: Db, u: string, user: User, now: nat) {
    && FreeTier(db.products).Some? && user.currentProductId == Some(FreeTier(db.products).value.id)
    && user.refreshToken in {None, Some(GenerateTokens(u, now).refreshToken)}
    && (user.emailVerificationToken.Some? ==> NewPendingToken(u, user.emailVerificationToken.value, now))
  }

  ghost predicate Moves(db: Db, db': Db, now: nat) {
    && db'.products == db.products
    && (forall u :: u in db.users ==> u in db'.users && UserMoves(u, db.users[u], db'.users[u], now))
    && (forall u :: u in db'.users && u !in db.users ==> NewUser(db, u, db'.users[u], now))
  }

  /** A call other than a webhook keeps billings, and moves a user to no other product than the free tier's. */
  ghost predicate AccountMoves(db: Db, db': Db, now: nat) {
    && Moves(db, db', now)
    && UniqueUsers(db')
    && db'.billings == db.billings
    && (forall u :: u in db.users ==>
        db'.users[u].currentProductId == db.users[u].currentProductId || OnFreeTier(db', u))
  }

  lemma PutMoves(db: Db, u: string, user: User, now: nat)
    requires UniqueUsers(db) && !Clashes(db, u, user)
    requires u in db.users ==> UserMoves(u, db.users[u], user, now)
    requires u in db.users ==> ProductMoves(db, db.users[u], user)
    requires u !in db.users ==> NewUser(db, u, user, now)
    ensures AccountMoves(db, PutUser(db, u, user), now) && UniqueUsers(PutUser(db, u, user))
  {
    PutKeepsUnique(db, u, user);
    PutMovesRows(db, u, user, now);
    hide UniqueUsers, Clashes, UserMoves, NewUser, Moves;
  }

  lemma PutMovesRows(db: Db, u: string, user: User, now: nat)
    requires u in db.users ==> UserMoves(u, db.users[u], user, now)
    requires u !in db.users ==> NewUser(db, u, user, now)
    ensures Moves(db, PutUser(db, u, user), now)
  {
    hide UserMoves, NewUser;
    forall v | v in db.users && v != u ensures UserMoves(v, db.users[v], PutUser(db, u, user).users[v], now) {
      StillMoves(v, db.users[v], now);
    }
    assert u !in db.users ==> NewUser(db, u, PutUser(db, u, user).users[u], now);
  }

  lemma StillMoves(u: string, a: User, now: nat)
    ensures UserMoves(u, a, a, now)
  {
  }

  lemma PutTwice(db: Db, u: string, a: User, b: User)
    ensures PutUser(PutUser(db, u, a), u, b) == PutUser(db, u, b)
    ensures u in PutUser(db, u, a).users && PutUser(db, u, a).users[u] == a && PutUser(db, u, a).products == db.products
  {
  }

  lemma PutKeepsUnique(db: Db, u: string, user: User)
    requires UniqueUsers(db) && !Clashes(db, u, user)
    ensures UniqueUsers(PutUser(db, u, user))
  {
  }

  lemma UpdateMoves(db: Db, u: string, p: UserPatch, now: nat)
    requires UniqueUsers(db)
    requires u in db.users ==> UserMoves(u, db.users[u], PatchUser(db.users[u], p, now), now)
    requires p.currentProductId == Keep
    ensures AccountMoves(db, Finally(db, u, p, now, ()).db, now)
  {
    if u in db.users {
      var user := PatchUser(db.users[u], p, now);
      if !Clashes(db, u, user) {
        PutMoves(db, u, user, now);
      }
    }
  }

  // ------------------------------------------------------------- every call moves rows so

  /** A user's row after tokens were issued: on the free tier if the subscription had expired. */
  ghost function Issued(db: Db, u: string, now: nat): User
    requires u in db.users
  {
    var free := FreeTier(db.products);
    var product := if HasExpiredSubscription(db, u, now) && free.Some? then Some(free.value.id)
                   else db.users[u].currentProductId;
    db.users[u].(currentProductId := product, refreshToken := Some(GenerateTokens(u, now).refreshToken),
                 updatedAt := now)
  }

  lemma IssueIsOneWrite(db: Db, u: string, now: nat)
    requires UniqueUsers(db) && u in db.users
    ensures var reply := IssueTokens(db, u, now);
            if HasExpiredSubscription(db, u, now) && FreeTier(db.products).None?
            then reply == Reply(db, Fail(Internal))
            else reply == Reply(PutUser(db, u, Issued(db, u, now)), Ok(GenerateTokens(u, now)))
  {
    hide HasExpiredSubscription, Clashes, UniqueUsers;
    var free := FreeTier(db.products);
    if HasExpiredSubscription(db, u, now) && free.Some? {
      var moved := db.users[u].(currentProductId := Some(free.value.id), updatedAt := now);
      NoClash(db, u, moved);
      PutKeepsUnique(db, u, moved);
      NoClash(PutUser(db, u, moved), u, Issued(db, u, now));
    } else {
      NoClash(db, u, Issued(db, u, now));
    }
  }

  lemma IssueMoves(db: Db, u: string, now: nat)
    requires UniqueUsers(db) && u in db.users
    ensures AccountMoves(db, IssueTokens(db, u, now).db, now)
  {
    IssueIsOneWrite(db, u, now);
    hide IssueTokens;
    if !(HasExpiredSubscription(db, u, now) && FreeTier(db.products).None?) {
      PutMoves(db, u, Issued(db, u, now), now);
    }
  }

  lemma GoogleMoves(db: Db, g: GoogleUser, hash: string, freshId: string, now: nat)
    requires UniqueUsers(db) && freshId !in db.users
    ensures AccountMoves(db, AuthenticateWithGoogle(db, g, hash, freshId, now).db, now)
  {
    hide IssueTokens, AccountMoves, Issued;
    var known, byEmail := UserBy(db, HasGoogleId(g.googleId)), UserBy(db, HasEmail(g.email));
    if known.Some? {
      IssueMoves(db, known.value, now);
    } else if byEmail.Some? {
      var u := byEmail.value;
      var linked := PatchUser(db.users[u], UserPatch(googleId := Set(Some(g.googleId)), emailVerified := Set(true)),
                              now);
      if !Clashes(db, u, linked) {
        FirstWriteThenIssue(db, u, linked, now);
      } else {
        NothingMoves(db, now);
      }
    } else if FreeTier(db.products).Some? {
      var user := User(g.email, g.fullName, "", 0, hash, Some(g.googleId), None, true, None,
                       Some(FreeTier(db.products).value.id), now);
      if !Clashes(db, freshId, user) {
        FirstWriteThenIssue(db, freshId, user, now);
      } else {
        NothingMoves(db, now);
      }
    } else {
      NothingMoves(db, now);
    }
  }

  lemma NothingMoves(db: Db, now: nat)
    requires UniqueUsers(db)
    ensures AccountMoves(db, db, now)
  {
  }

  lemma SameKeys(db: Db, u: string, user: User, user': User, user'': User)
    requires user'.email == user.email && user'.googleId == user.googleId
    ensures Clashes(db, u, user') == Clashes(db, u, user) == Clashes(PutUser(db, u, user''), u, user)
  {
    var db' := PutUser(db, u, user'');
    assert forall other :: other != u ==> (other in db'.users <==> other in db.users);
    assert forall other :: other != u && other in db.users ==>
        other in db'.users && db'.users[other] == db.users[other];
  }

  ghost predicate ProductMoves(db: Db, a: User, b: User) {
    b.currentProductId == a.currentProductId
    || (FreeTier(db.products).Some? && b.currentProductId == Some(FreeTier(db.products).value.id))
  }

  /** A first write on a row, or its creation. */
  ghost predicate FirstWrite(db: Db, u: string, user: User, now: nat) {
    && (u in db.users ==> UserMoves(u, db.users[u], user, now) && user.currentProductId == db.users[u].currentProductId
                          && user.refreshToken == db.users[u].refreshToken)
    && (u !in db.users ==> NewUser(db, u, user, now))
  }

  lemma IssuedMoves(db: Db, u: string, user: User, now: nat)
    requires FirstWrite(db, u, user, now)
    ensures var user' := Issued(PutUser(db, u, user), u, now);
            && user'.email == user.email && user'.googleId == user.googleId
            && (u in db.users ==> UserMoves(u, db.users[u], user', now) && ProductMoves(db, db.users[u], user'))
            && (u !in db.users ==> NewUser(db, u, user', now))
  {
    hide HasExpiredSubscription;
  }

  lemma FirstWriteThenIssue(db: Db, u: string, user: User, now: nat)
    requires UniqueUsers(db) && !Clashes(db, u, user) && FirstWrite(db, u, user, now)
    ensures AccountMoves(db, IssueTokens(PutUser(db, u, user), u, now).db, now)
  {
    FirstWriteMoves(db, u, user, now);
    IssuedMoves(db, u, user, now);
    hide *;
    var db1 := PutUser(db, u, user);
    PutTwice(db, u, user, user);
    IssueIsOneWrite(db1, u, now);
    var user' := Issued(db1, u, now);
    SameKeys(db, u, user, user', user);
    PutTwice(db, u, user, user');
    PutMoves(db, u, user', now);
  }

  lemma FirstWriteMoves(db: Db, u: string, user: User, now: nat)
    requires UniqueUsers(db) && !Clashes(db, u, user) && FirstWrite(db, u, user, now)
    ensures AccountMoves(db, PutUser(db, u, user), now) && UniqueUsers(PutUser(db, u, user))
  {
    assert u in db.users ==> ProductMoves(db, db.users[u], user);
    hide UserMoves, NewUser, ProductMoves, AccountMoves, UniqueUsers, Clashes;
    PutMoves(db, u, user, now);
  }

  lemma SignupMoves(db: Db, input: SignupInput, hash: string, freshId: string, now: nat)
    requires UniqueUsers(db) && freshId !in db.users
    ensures AccountMoves(db, RegisterUser(db, input, hash, freshId, now).db, now)
  {
    hide AccountMoves, Clashes, UniqueUsers;
    NothingMoves(db, now);
    var free := FreeTier(db.products);
    if free.Some? {
      var user := User(input.email, input.fullName, input.phone, input.age, hash, None, None, false, None,
                       Some(free.value.id), now);
      if !Clashes(db, freshId, user) {
        var user' := user.(emailVerificationToken := Some(Sign(freshId, EmailVerification, Seconds(now),
                                                               VERIFICATION_SECONDS)));
        FirstWriteMoves(db, freshId, user, now);
        SameKeys(db, freshId, user, user', user);
        FirstWriteMoves(db, freshId, user', now);
        PutTwice(db, freshId, user, user');
        NoClash(PutUser(db, freshId, user), freshId, user');
      }
    }
  }

  lemma NoClash(db: Db, u: string, user: User)
    requires UniqueUsers(db) && u in db.users && user.email == db.users[u].email
              && user.googleId == db.users[u].googleId
    ensures !Clashes(db, u, user)
  {
  }

  lemma VerifyMoves(db: Db, p: Presented, clears: bool, now: nat)
    requires UniqueUsers(db)
    ensures AccountMoves(db, VerifyUserEmail(db, p, clears, now).db, now)
  {
    NothingMoves(db, now);
    if p.Signed? {
      UpdateMoves(db, p.token.userId,
                  UserPatch(emailVerified := Set(true), emailVerificationToken := Undefined(clears)), now);
    }
    hide AccountMoves, Finally, UniqueUsers;
  }

  lemma ResendMoves(db: Db, u: string, sent: bool, now: nat)
    requires UniqueUsers(db)
    ensures AccountMoves(db, ResendVerificationEmail(db, u, sent, now).db, now)
  {
    NothingMoves(db, now);
    UpdateMoves(db, u, UserPatch(emailVerificationToken := Set(Some(Sign(u, EmailVerification, Seconds(now),
                                                                         VERIFICATION_SECONDS)))), now);
    hide AccountMoves, Finally, UniqueUsers;
  }

  lemma RequestMoves(db: Db, u: string, newEmail: string, code: string, sent: bool, now: nat)
    requires UniqueUsers(db)
    ensures AccountMoves(db, RequestEmailChange(db, u, newEmail, code, sent, now).db, now)
  {
    NothingMoves(db, now);
    UpdateMoves(db, u, UserPatch(emailVerificationToken := Set(Some(Sign(u, EmailChange(code, newEmail, 0),
                                                                         Seconds(now), CHANGE_SECONDS)))), now);
    hide AccountMoves, Finally, UniqueUsers;
  }

  lemma OtherMoves(db: Db, c: Call)
    requires UniqueUsers(db) && (c.action.Logout? || c.action.ResetPasswordWith? || c.action.UpdateProfile?)
    ensures AccountMoves(db, Step(db, c), c.now)
  {
    NothingMoves(db, c.now);
    hide AccountMoves, Finally, UniqueUsers, UpdateUserProfile;
    match c.action
    case Logout(u) => UpdateMoves(db, u, UserPatch(refreshToken := Undefined(c.clears)), c.now);
    case ResetPasswordWith(p, hash) =>
      if p.Signed? {
        UpdateMoves(db, p.token.userId, UserPatch(passwordHash := Set(hash), refreshToken := Undefined(c.clears)),
                    c.now);
      }
    case UpdateProfile(u, f) => ProfileMoves(db, u, f, c.now);
  }

  lemma ProfileMoves(db: Db, u: string, f: ProfileUpdates, now: nat)
    requires UniqueUsers(db)
    ensures AccountMoves(db, UpdateUserProfile(db, u, f, now).db, now)
  {
    UpdateMoves(db, u, UserPatch(email := f.email, fullName := f.fullName, phone := f.phone, age := f.age), now);
    hide AccountMoves, Finally, UniqueUsers;
  }

  /** The row after the checker stored its token. */
  function CheckedUser(a: User, checked: Option<Token>, now: nat): User {
    if checked.None? then a else a.(emailVerificationToken := checked, updatedAt := now)
  }

  function ChangedUser(a: User, newEmail: string, now: nat): User {
    a.(email := newEmail, googleId := None, emailVerificationToken := None, emailVerified := true, updatedAt := now)
  }

  lemma StoreCheckedIs(db: Db, u: string, checked: Option<Token>, now: nat)
    requires UniqueUsers(db) && u in db.users
    ensures StoreChecked(db, u, checked, now) == PutUser(db, u, CheckedUser(db.users[u], checked, now))
  {
  }

  lemma ChangeEmailIs(db: Db, u: string, newEmail: string, now: nat)
    requires UniqueUsers(db) && u in db.users
    ensures var changed := ChangedUser(db.users[u], newEmail, now);
            var reply := ChangeEmail(db, u, newEmail, now);
            if Clashes(db, u, changed) then reply.db == db && reply.result.Fail?
            else reply == Reply(PutUser(db, u, changed), Ok(()))
  {
  }

  /** The address is written unless it is taken or a wrong code's rejection ends the process first. */
  ghost predicate AddressWritten(db: Db, u: string, code: string, order: Order, now: nat)
    requires u in db.users && Refusal(db.users[u].emailVerificationToken, now).None?
  {
    var t := db.users[u].emailVerificationToken.value;
    !Clashes(db, u, ChangedUser(db.users[u], t.claims.newEmail, now)) && (order.CheckerOnly? ==> code == t.claims.code)
  }

  /** The user's row after both writes. */
  ghost function RowAfterCode(db: Db, u: string, code: string, order: Order, now: nat): User
    requires u in db.users && Refusal(db.users[u].emailVerificationToken, now).None?
  {
    var a, t := db.users[u], db.users[u].emailVerificationToken.value;
    var checked, changed := VerifyEmailChangeCode(t, code, now), ChangedUser(a, t.claims.newEmail, now);
    if !AddressWritten(db, u, code, order, now) then CheckedUser(a, checked, now)
    else if order.CallerFirst? then CheckedUser(changed, checked, now)
    else changed
  }

  lemma CodeWrites(db: Db, u: string, code: string, order: Order, now: nat)
    requires UniqueUsers(db) && u in db.users && Refusal(db.users[u].emailVerificationToken, now).None?
    ensures var reply := VerifyEmailChange(db, u, code, order, now);
            && reply.db == PutUser(db, u, RowAfterCode(db, u, code, order, now))
            && (reply.result.Ok? <==> AddressWritten(db, u, code, order, now))
  {
    var a, t := db.users[u], db.users[u].emailVerificationToken.value;
    var checked, newEmail := VerifyEmailChangeCode(t, code, now), t.claims.newEmail;
    var b, c := CheckedUser(a, checked, now), ChangedUser(a, newEmail, now);
    hide UniqueUsers, Clashes, StoreChecked, ChangeEmail, Refusal, VerifyEmailChangeCode;
    match order
    case CallerFirst => CallerWritesFirst(db, u, checked, newEmail, now);
    case _ =>
      CheckerWritesFirst(db, u, checked, newEmail, now);
      CheckedOutcome(t, code, now);
      StoreCheckedIs(db, u, checked, now);
      ChangeEmailIs(db, u, newEmail, now);
      assert checked.None? ==> PutUser(db, u, b) == db;
  }

  lemma CheckedOutcome(t: Token, code: string, now: nat)
    requires t.claims.EmailChange?
    ensures VerifyEmailChangeCode(t, code, now).None? <==> code == t.claims.code
  {
  }

  lemma CheckerWritesFirst(db: Db, u: string, checked: Option<Token>, newEmail: string, now: nat)
    requires UniqueUsers(db) && u in db.users
    ensures var b, c := CheckedUser(db.users[u], checked, now), ChangedUser(db.users[u], newEmail, now);
            var reply := ChangeEmail(StoreChecked(db, u, checked, now), u, newEmail, now);
            && reply.db == PutUser(db, u, if Clashes(db, u, c) then b else c)
            && (reply.result.Ok? <==> !Clashes(db, u, c))
  {
    var b, c := CheckedUser(db.users[u], checked, now), ChangedUser(db.users[u], newEmail, now);
    assert ChangedUser(b, newEmail, now) == c;
    hide UniqueUsers, Clashes, StoreChecked, ChangeEmail;
    NoClash(db, u, b);
    PutKeepsUnique(db, u, b);
    SameKeys(db, u, c, c, b);
    StoreCheckedIs(db, u, checked, now);
    ChangeEmailIs(PutUser(db, u, b), u, newEmail, now);
    PutTwice(db, u, b, c);
  }

  lemma CallerWritesFirst(db: Db, u: string, checked: Option<Token>, newEmail: string, now: nat)
    requires UniqueUsers(db) && u in db.users
    ensures var a, c := db.users[u], ChangedUser(db.users[u], newEmail, now);
            var changed := ChangeEmail(db, u, newEmail, now);
            && StoreChecked(changed.db, u, checked, now)
               == PutUser(db, u, CheckedUser(if Clashes(db, u, c) then a else c, checked, now))
            && (changed.result.Ok? <==> !Clashes(db, u, c))
  {
    var c := ChangedUser(db.users[u], newEmail, now);
    hide UniqueUsers, StoreChecked, ChangeEmail, Clashes;
    ChangeEmailIs(db, u, newEmail, now);
    if Clashes(db, u, c) {
      StoreCheckedIs(db, u, checked, now);
    } else {
      PutKeepsUnique(db, u, c);
      StoreCheckedIs(PutUser(db, u, c), u, checked, now);
      PutTwice(db, u, c, CheckedUser(c, checked, now));
    }
  }

  lemma RowAfterCodeMoves(db: Db, u: string, code: string, order: Order, now: nat)
    requires UniqueUsers(db) && u in db.users && Refusal(db.users[u].emailVerificationToken, now).None?
    ensures var a, row := db.users[u], RowAfterCode(db, u, code, order, now);
            !Clashes(db, u, row) && UserMoves(u, a, row, now) && ProductMoves(db, a, row)
  {
    var a, t := db.users[u], db.users[u].emailVerificationToken.value;
    var changed, row := ChangedUser(a, t.claims.newEmail, now), RowAfterCode(db, u, code, order, now);
    hide UniqueUsers, Clashes;
    if AddressWritten(db, u, code, order, now) {
      SameKeys(db, u, changed, row, a);
    } else {
      NoClash(db, u, row);
    }
  }

  lemma ChangeMoves(db: Db, u: string, code: string, order: Order, now: nat)
    requires UniqueUsers(db)
    ensures AccountMoves(db, VerifyEmailChange(db, u, code, order, now).db, now)
  {
    NothingMoves(db, now);
    if u in db.users && Refusal(db.users[u].emailVerificationToken, now).None? {
      CodeWrites(db, u, code, order, now);
      RowAfterCodeMoves(db, u, code, order, now);
      hide *;
      PutMoves(db, u, RowAfterCode(db, u, code, order, now), now);
    }
    hide AccountMoves, UniqueUsers, StoreChecked, ChangeEmail;
  }

  lemma SessionCallMoves(db: Db, c: Call)
    requires UniqueUsers(db) && c.freshId !in db.users
    requires c.action.Signup? || c.action.GoogleLogin? || c.action.Login? || c.action.Refresh?
    ensures AccountMoves(db, Step(db, c), c.now)
  {
    NothingMoves(db, c.now);
    hide AccountMoves, UniqueUsers, IssueTokens, RegisterUser, AuthenticateWithGoogle;
    match c.action
    case Signup(input, hash) => SignupMoves(db, input, hash, c.freshId, c.now);
    case GoogleLogin(google, hash) => GoogleMoves(db, google, hash, c.freshId, c.now);
    case Login(email, matches) =>
      if UserBy(db, HasEmail(email)).Some? {
        IssueMoves(db, UserBy(db, HasEmail(email)).value, c.now);
      }
    case Refresh(p) =>
      if p.Signed? && UserBy(db, HasRefreshToken(p.token)).Some? {
        IssueMoves(db, UserBy(db, HasRefreshToken(p.token)).value, c.now);
      }
  }

  lemma AccountCallMoves(db: Db, c: Call)
    requires Inv(db) && Allowed(db, c) && !c.action.Webhook?
    ensures AccountMoves(db, Step(db, c), c.now)
  {
    assert UniqueUsers(db);
    hide Inv, AccountMoves, UniqueUsers, VerifyUserEmail, ResendVerificationEmail, RequestEmailChange,
         VerifyEmailChange, RegisterUser, AuthenticateWithGoogle, AuthenticateUser, RefreshAccessToken,
         RevokeUserRefreshToken, ResetPassword, UpdateUserProfile, Possible;
    match c.action
    case VerifyEmail(p) => VerifyMoves(db, p, c.clears, c.now);
    case ResendVerification(u) => ResendMoves(db, u, c.sent, c.now);
    case RequestChange(u, newEmail, code) => RequestMoves(db, u, newEmail, code, c.sent, c.now);
    case VerifyChange(u, code, order) => ChangeMoves(db, u, code, order, c.now);
    case _ =>
      if c.action.Logout? || c.action.ResetPasswordWith? || c.action.UpdateProfile? {
        OtherMoves(db, c);
      } else {
        SessionCallMoves(db, c);
      }
  }

  // ------------------------------------------------------------- the rules are kept

  lemma AccountMovesKeepInv(db: Db, db': Db, now: nat)
    requires Inv(db) && AccountMoves(db, db', now)
    ensures Inv(db') && Moves(db, db', now)
    ensures RevokedOnFree(db) ==> RevokedOnFree(db')
  {
    AccountMovesKeepEntitled(db, db', now);
    MovesKeepTokensOwned(db, db', now);
    if RevokedOnFree(db) {
      AccountMovesKeepRevokedOnFree(db, db', now);
    }
    hide Entitled, TokensOwned, UserMoves, NewUser, OnFreeTier, RevokedOnFree;
  }

  lemma AccountMovesKeepEntitled(db: Db, db': Db, now: nat)
    requires Entitled(db) && AccountMoves(db, db', now)
    ensures Entitled(db')
  {
    hide UserMoves, UniqueUsers;
    forall u | u in db'.users ensures OnFreeTier(db', u) || OwnsCurrentProduct(db', u) {
      if u in db.users {
        assert OnFreeTier(db, u) || OwnsCurrentProduct(db, u);
        if OwnsCurrentProduct(db, u) {
          var row :| row in db.billings && db.billings[row].userId == u
                     && db.users[u].currentProductId == Some(db.billings[row].productId);
          assert row in db'.billings;
        }
      } else {
        assert NewUser(db, u, db'.users[u], now);
      }
    }
  }

  lemma AccountMovesKeepRevokedOnFree(db: Db, db': Db, now: nat)
    requires RowsOwned(db) && RevokedOnFree(db) && AccountMoves(db, db', now)
    ensures RevokedOnFree(db')
  {
    hide UserMoves, NewUser, UniqueUsers;
  }

  lemma MovesKeepTokensOwned(db: Db, db': Db, now: nat)
    requires TokensOwned(db) && Moves(db, db', now)
    ensures TokensOwned(db')
  {
    hide Moves;
    forall u | u in db'.users ensures OwnTokens(u, db'.users[u]) {
      MovedTokens(db, db', u, now);
    }
  }

  lemma MovedTokens(db: Db, db': Db, u: string, now: nat)
    requires TokensOwned(db) && Moves(db, db', now) && u in db'.users
    ensures OwnTokens(u, db'.users[u])
  {
    if u in db.users {
      assert OwnTokens(u, db.users[u]);
      assert UserMoves(u, db.users[u], db'.users[u], now);
    } else {
      assert NewUser(db, u, db'.users[u], now);
    }
    hide Moves, TokensOwned;
  }

  lemma WriteMoves(db: Db, e: Effect, now: nat)
    requires TokensOwned(db)
    ensures Moves(db, ApplyEffect(db, e, now), now) && TokensOwned(ApplyEffect(db, e, now))
  {
    var db' := ApplyEffect(db, e, now);
    hide UserMoves, OwnTokens;
    forall u | u in db.users ensures UserMoves(u, db.users[u], db'.users[u], now) && OwnTokens(u, db'.users[u]) {
      assert OwnTokens(u, db.users[u]);
      ProductWriteMoves(u, db.users[u], db'.users[u], now);
    }
  }

  lemma ProductWriteMoves(u: string, a: User, b: User, now: nat)
    requires OwnTokens(u, a) && b == a.(currentProductId := b.currentProductId, updatedAt := b.updatedAt)
    ensures UserMoves(u, a, b, now) && OwnTokens(u, b)
  {
  }

  lemma WebhookKeepsInv(db: Db, d: Delivery)
    requires Inv(db) && Possible(db, d)
    ensures Inv(Delivered(db, d)) && Moves(db, Delivered(db, d), d.now)
    ensures RevokedOnFree(db) && HasStatus(d.event) ==> RevokedOnFree(Delivered(db, d))
  {
    hide Delivered, EffectOf, ApplyEffect, Keyed, Entitled, RevokedOnFree, Moves, Possible, TokensOwned;
    WebhookIsOneWrite(db, d);
    WriteMoves(db, EffectOf(db, d), d.now);
    DeliveredKeepsKeyed(db, d);
    DeliveredKeepsEntitled(db, d);
    if RevokedOnFree(db) && HasStatus(d.event) {
      DeliveredKeepsRevokedOnFree(db, d);
    }
  }

  lemma AsKeyed(db: Db)
    requires Inv(db)
    ensures Keyed(db)
  {
  }

  ghost function DeliveryOf(c: Call): Delivery
    requires c.action.Webhook?
  {
    Delivery(c.action.event, c.now, c.freshId, c.action.row)
  }

  lemma WebhookCall(db: Db, c: Call)
    requires Inv(db) && Allowed(db, c) && c.action.Webhook?
    ensures Keyed(db) && Possible(db, DeliveryOf(c)) && Step(db, c) == Delivered(db, DeliveryOf(c))
  {
    hide Keyed, Entitled, TokensOwned, Possible, Delivered;
  }

  /** Each call moves every user's row as `UserMoves` allows, keeps the products, and keeps every rule. */
  lemma StepKeepsInv(db: Db, c: Call)
    requires Inv(db) && Allowed(db, c)
    ensures Inv(Step(db, c)) && Moves(db, Step(db, c), c.now)
    ensures RevokedOnFree(db) && (c.action.Webhook? ==> HasStatus(c.action.event)) ==> RevokedOnFree(Step(db, c))
  {
    if c.action.Webhook? {
      hide Delivered, Inv, RevokedOnFree, Moves, Possible;
      WebhookKeepsInv(db, Delivery(c.action.event, c.now, c.freshId, c.action.row));
    } else {
      hide *;
      AccountCallMoves(db, c);
      AccountMovesKeepInv(db, Step(db, c), c.now);
    }
  }

  /** The first call of a run. */
  lemma First(db: Db, now: nat, c: Call, rest: seq<Call>)
    requires now <= c.now && Allowed(db, c)
    ensures Run(db, [c] + rest) == Run(Step(db, c), rest)
    ensures AllowedRun(Step(db, c), c.now, rest) ==> AllowedRun(db, now, [c] + rest)
  {
    assert ([c] + rest)[1..] == rest;
  }

  /** In every state that sign-up, logins, refreshes, email calls and webhooks reach, each user has at most one billing
      row and is on the free tier or on the product of that row; a revoked row's user is on the free tier, as long as
      the provider's updates carry a status; and the free tier is the seeded one. */
  lemma {:induction false} ReachableRules(db: Db, now: nat, calls: seq<Call>)
    requires Inv(db) && AllowedRun(db, now, calls)
    ensures Inv(Run(db, calls))
    ensures RevokedOnFree(db) && (forall c :: c in calls && c.action.Webhook? ==> HasStatus(c.action.event)) ==>
              RevokedOnFree(Run(db, calls))
    ensures FreeTier(Run(db, calls).products) == FreeTier(db.products)
    decreases |calls|
  {
    if calls == [] {
    } else {
      StepKeepsInv(db, calls[0]);
      hide Step, Inv, Allowed, RevokedOnFree;
      ReachableRules(Step(db, calls[0]), calls[0].now, calls[1..]);
    }
  }

  /** Nobody has signed up yet. */
  ghost predicate Initial(db: Db) { db.users == map[] && db.billings == map[] }

  lemma InitialRules(db: Db)
    requires Initial(db)
    ensures Inv(db) && RevokedOnFree(db)
  {
  }

  /** A user without a billing row is on the free tier. */
  lemma NoRowMeansFree(db: Db, u: string)
    requires Inv(db) && u in db.users && BillingOf(db, u).None?
    ensures OnFreeTier(db, u)
  {
    assert OnFreeTier(db, u) || OwnsCurrentProduct(db, u);
  }
}

/** A user's subscription does not depend on the other users: what any run of calls does to a user is what is left of it
    when the deliveries for other users' subscriptions are taken out. */
module Projections {
  import opened Common
  import opened Tokens
  import opened Rows
  import opened BillingService
  import opened WebhookEffects
  import opened Subscriptions
  import opened AuthService
  import opened EmailService
  import opened System
  import opened TokenTheorems
  import opened CallOutcomes

  /** Two rows of a user that differ at most in what deliveries and token-issuing calls write. */
  ghost predicate Alike(a: User, b: User) {
    b == a.(currentProductId := b.currentProductId, refreshToken := b.refreshToken, updatedAt := b.updatedAt)
  }

  /** The two databases show `u` the same, and of the others everything but their products, sessions and billings. */
  ghost predicate Twins(a: Db, b: Db, u: string) {
    && SameFor(u, a, b) && b.billings.Keys <= a.billings.Keys && a.users.Keys == b.users.Keys
    && forall v :: v in a.users ==> Alike(a.users[v], b.users[v])
  }

  // ------------------------------------------------------------- deliveries

  lemma WriteAlike(db: Db, e: Effect, now: nat)
    requires e.Write? ==> e.row.userId in db.users
    ensures ApplyEffect(db, e, now).users.Keys == db.users.Keys
    ensures forall v :: v in db.users ==> Alike(db.users[v], ApplyEffect(db, e, now).users[v])
  {
  }

  lemma DeliveredAlike(db: Db, d: Delivery)
    requires Keyed(db) && Possible(db, d)
    ensures Delivered(db, d).users.Keys == db.users.Keys
    ensures forall v :: v in db.users ==> Alike(db.users[v], Delivered(db, d).users[v])
  {
    WebhookIsOneWrite(db, d);
    EffectShape(db, d);
    assert EffectOf(db, d).Write? ==> EffectOf(db, d).row.userId in db.users;
    hide *;
    WriteAlike(db, EffectOf(db, d), d.now);
  }

  lemma TwinsDeliver(a: Db, b: Db, d: Delivery, owner: string -> string, u: string)
    requires Keyed(a) && Keyed(b) && OwnRows(a, owner, u) && OwnRows(b, owner, u) && Twins(a, b, u)
    requires Possible(a, d) && Billed(a.products, owner, d.event) && IsOwn(owner, a.users[u].email, d.event)
    ensures Possible(b, d) && Twins(Delivered(a, d), Delivered(b, d), u)
  {
    OwnEventTracks(a, b, d, owner, u);
    DeliveredAlike(a, d);
    DeliveredAlike(b, d);
    assert a.users.Keys == b.users.Keys && forall v :: v in a.users ==> Alike(a.users[v], b.users[v]);
    hide *;
    MadeTwins(a, b, Delivered(a, d), Delivered(b, d), u);
  }

  lemma MadeTwins(a: Db, b: Db, a': Db, b': Db, u: string)
    requires a.users.Keys == b.users.Keys == a'.users.Keys == b'.users.Keys
    requires forall v :: v in a.users ==> Alike(a.users[v], b.users[v])
    requires forall v :: v in a.users ==> Alike(a.users[v], a'.users[v])
    requires forall v :: v in b.users ==> Alike(b.users[v], b'.users[v])
    requires SameFor(u, a', b') && b'.billings.Keys <= a'.billings.Keys
    ensures Twins(a', b', u)
  {
    hide SameFor;
  }

  lemma TwinsIgnore(a: Db, b: Db, d: Delivery, owner: string -> string, u: string)
    requires Keyed(a) && OwnRows(a, owner, u) && Twins(a, b, u)
    requires Possible(a, d) && Billed(a.products, owner, d.event) && !IsOwn(owner, a.users[u].email, d.event)
    ensures Twins(Delivered(a, d), b, u)
  {
    ForeignEvent(a, d, owner, u);
    SameForSym(u, a, Delivered(a, d), b);
    DeliveredAlike(a, d);
    assert a.users.Keys == b.users.Keys && forall v :: v in a.users ==> Alike(a.users[v], b.users[v]);
    assert forall v :: v in b.users ==> Alike(b.users[v], b.users[v]);
    hide *;
    MadeTwins(a, b, Delivered(a, d), b, u);
  }

  // ------------------------------------------------------------- account calls

  /** A write of one row on both sides. */
  lemma TwinsWrite(a: Db, b: Db, a': Db, b': Db, t: string, u: string)
    requires Twins(a, b, u) && OnlyRow(a, a', t) && OnlyRow(b, b', t) && (t in a'.users <==> t in b'.users)
    requires t in a'.users ==> Alike(a'.users[t], b'.users[t])
    requires t == u ==> t in a'.users && a'.users[t] == b'.users[t]
    ensures Twins(a', b', u)
  {
    SameForWrite(a, b, a', b', t, u);
    TwinsKeys(a, b, u);
    AlikeWrite(a, b, a', b', t);
    hide SameFor, OnlyRow, Alike;
  }

  lemma SameForWrite(a: Db, b: Db, a': Db, b': Db, t: string, u: string)
    requires SameFor(u, a, b) && b.billings.Keys <= a.billings.Keys && OnlyRow(a, a', t) && OnlyRow(b, b', t)
    requires t == u ==> t in a'.users && t in b'.users && a'.users[t] == b'.users[t]
    ensures SameFor(u, a', b') && b'.billings.Keys <= a'.billings.Keys
  {
  }

  lemma AlikeWrite(a: Db, b: Db, a': Db, b': Db, t: string)
    requires a.users.Keys == b.users.Keys && forall v :: v in a.users ==> Alike(a.users[v], b.users[v])
    requires OnlyRow(a, a', t) && OnlyRow(b, b', t) && (t in a'.users <==> t in b'.users)
    requires t in a'.users ==> Alike(a'.users[t], b'.users[t])
    ensures a'.users.Keys == b'.users.Keys && forall v :: v in a'.users ==> Alike(a'.users[v], b'.users[v])
  {
    hide Alike;
    assert forall v :: v in a'.users <==> v in b'.users;
  }

  lemma TwinsPut(a: Db, b: Db, t: string, x: User, y: User, u: string)
    requires Twins(a, b, u) && Alike(x, y) && (t == u ==> x == y)
    ensures Twins(PutUser(a, t, x), PutUser(b, t, y), u)
  {
    PutIsOnlyRow(a, t, x);
    PutIsOnlyRow(b, t, y);
    hide Twins, OnlyRow, Alike;
    TwinsWrite(a, b, PutUser(a, t, x), PutUser(b, t, y), t, u);
  }

  /** Both sides look users up alike. */
  lemma TwinsLookUp(a: Db, b: Db, u: string)
    requires UniqueUsers(a) && UniqueUsers(b) && Twins(a, b, u)
    ensures forall email: string :: UserBy(a, HasEmail(email)) == UserBy(b, HasEmail(email))
    ensures forall googleId: string :: UserBy(a, HasGoogleId(googleId)) == UserBy(b, HasGoogleId(googleId))
  {
    forall email: string ensures UserBy(a, HasEmail(email)) == UserBy(b, HasEmail(email)) {
      SameLookup(a, b, HasEmail(email));
    }
    forall googleId: string ensures UserBy(a, HasGoogleId(googleId)) == UserBy(b, HasGoogleId(googleId)) {
      SameLookup(a, b, HasGoogleId(googleId));
    }
  }

  lemma SameLookup(a: Db, b: Db, key: User -> bool)
    requires a.users.Keys == b.users.Keys && forall v :: v in a.users ==> key(a.users[v]) == key(b.users[v])
    requires forall v, w :: v in a.users && w in a.users && key(a.users[v]) && key(a.users[w]) ==> v == w
    ensures UserBy(a, key) == UserBy(b, key)
  {
  }

  lemma TwinsClash(a: Db, b: Db, t: string, x: User, y: User, u: string)
    requires Twins(a, b, u) && Alike(x, y)
    ensures Clashes(a, t, x) == Clashes(b, t, y)
  {
    hide SameFor;
    forall other | other in a.users
      ensures other in b.users && b.users[other].email == a.users[other].email
      ensures b.users[other].googleId == a.users[other].googleId
    {
      assert Alike(a.users[other], b.users[other]);
    }
    assert forall other :: other in b.users ==> other in a.users;
  }

  lemma TwinsExpire(a: Db, b: Db, u: string, now: nat)
    requires Keyed(a) && Keyed(b) && Twins(a, b, u)
    ensures HasExpiredSubscription(a, u, now) == HasExpiredSubscription(b, u, now)
  {
    SameLookups(a, b, u);
    hide Keyed;
  }

  /** A user's row once tokens were asked for: unchanged if the user is stuck. */
  ghost function Asked(db: Db, t: string, now: nat): User
    requires t in db.users
  {
    if Stuck(db, t, now) then db.users[t] else Issued(db, t, now)
  }

  lemma AskedAlike(a: Db, b: Db, t: string, now: nat, u: string)
    requires Keyed(a) && Keyed(b) && Twins(a, b, u) && t in a.users
    ensures Alike(Asked(a, t, now), Asked(b, t, now))
    ensures t == u ==> Asked(a, t, now) == Asked(b, t, now)
  {
    hide Keyed, HasExpiredSubscription, Twins, FreeTier;
    TwinsRow(a, b, t, u);
    if t == u {
      TwinsExpire(a, b, u, now);
    }
  }

  lemma IssueIsAsked(db: Db, t: string, now: nat)
    requires UniqueUsers(db) && t in db.users
    ensures IssueTokens(db, t, now).db == PutUser(db, t, Asked(db, t, now))
  {
    IssueIsOneWrite(db, t, now);
    assert PutUser(db, t, db.users[t]) == db;
    hide IssueTokens, HasExpiredSubscription, Issued, UniqueUsers;
  }

  lemma TwinsIssue(a: Db, b: Db, t: string, now: nat, u: string)
    requires Keyed(a) && Keyed(b) && Twins(a, b, u) && t in a.users
    ensures Twins(IssueTokens(a, t, now).db, IssueTokens(b, t, now).db, u)
  {
    assert t in b.users && UniqueUsers(a) && UniqueUsers(b);
    hide *;
    IssueIsAsked(a, t, now);
    IssueIsAsked(b, t, now);
    AskedAlike(a, b, t, now, u);
    TwinsPut(a, b, t, Asked(a, t, now), Asked(b, t, now), u);
  }

  lemma TwinsLogin(a: Db, b: Db, email: string, matches: bool, now: nat, u: string)
    requires Inv(a) && Inv(b) && Twins(a, b, u)
    ensures Twins(AuthenticateUser(a, email, matches, now).db, AuthenticateUser(b, email, matches, now).db, u)
  {
    AsKeyed(a);
    AsKeyed(b);
    TwinsLookUp(a, b, u);
    var t := UserBy(a, HasEmail(email));
    if t.Some? && matches {
      TwinsIssue(a, b, t.value, now, u);
    }
    hide Twins, IssueTokens, Keyed, Inv;
  }

  lemma TwinsRefresh(a: Db, b: Db, p: Presented, now: nat, u: string)
    requires Inv(a) && Inv(b) && Twins(a, b, u)
    ensures Twins(RefreshAccessToken(a, p, now).db, RefreshAccessToken(b, p, now).db, u)
  {
    if p.Signed? && p.token.userId in a.users {
      var t := p.token.userId;
      RefreshIsOneWrite(a, p, now);
      RefreshIsOneWrite(b, p, now);
      AsKeyed(a);
      AsKeyed(b);
      Refreshed(a, b, p, now, u);
      hide *;
      TwinsPut(a, b, t, RefreshedRow(a, p, now), RefreshedRow(b, p, now), u);
    } else {
      RefreshOutcome(a, p, now);
      RefreshOutcome(b, p, now);
      hide RefreshAccessToken, Twins, Inv;
      assert a.users.Keys == b.users.Keys by { TwinsKeys(a, b, u); }
    }
  }

  lemma TwinsKeys(a: Db, b: Db, u: string)
    requires Twins(a, b, u)
    ensures a.users.Keys == b.users.Keys
  {
  }

  /** The row that a refresh leaves. */
  ghost function RefreshedRow(db: Db, p: Presented, now: nat): User
    requires p.Signed? && p.token.userId in db.users
  {
    var t := p.token.userId;
    if Verifies(p, now) && db.users[t].refreshToken == Some(p.token) then Asked(db, t, now) else db.users[t]
  }

  lemma RefreshIsOneWrite(db: Db, p: Presented, now: nat)
    requires Inv(db) && p.Signed? && p.token.userId in db.users
    ensures RefreshAccessToken(db, p, now).db == PutUser(db, p.token.userId, RefreshedRow(db, p, now))
  {
    var t := p.token.userId;
    assert PutUser(db, t, db.users[t]) == db;
    assert p == Signed(p.token);
    RefreshOutcome(db, p, now);
    if Verifies(p, now) {
      RefreshesWhenStored(db, p.token, now);
      StuckIs(db, t, now);
    }
    hide RefreshAccessToken, Inv, HasExpiredSubscription, Issued, Stuck;
  }

  lemma Refreshed(a: Db, b: Db, p: Presented, now: nat, u: string)
    requires Keyed(a) && Keyed(b) && Twins(a, b, u) && p.Signed? && p.token.userId in a.users
    ensures p.token.userId in b.users && Alike(RefreshedRow(a, p, now), RefreshedRow(b, p, now))
    ensures p.token.userId == u ==> RefreshedRow(a, p, now) == RefreshedRow(b, p, now)
  {
    var t := p.token.userId;
    AskedAlike(a, b, t, now, u);
    assert Alike(a.users[t], b.users[t]);
    AskedIsAlike(a, t, now);
    AskedIsAlike(b, t, now);
    hide Asked, Keyed, Verifies;
  }

  lemma AskedIsAlike(db: Db, t: string, now: nat)
    requires t in db.users
    ensures Alike(db.users[t], Asked(db, t, now))
  {
    hide Stuck, HasExpiredSubscription;
  }

  lemma TwinsGoogle(a: Db, b: Db, g: GoogleUser, hash: string, freshId: string, now: nat, u: string)
    requires Inv(a) && Inv(b) && Twins(a, b, u) && freshId !in a.users
    ensures Twins(AuthenticateWithGoogle(a, g, hash, freshId, now).db,
                  AuthenticateWithGoogle(b, g, hash, freshId, now).db, u)
  {
    TwinsKeys(a, b, u);
    SameGoogleRow(a, b, g, hash, freshId, now, u);
    GoogleIsWriteThenIssue(a, g, hash, freshId, now);
    GoogleIsWriteThenIssue(b, g, hash, freshId, now);
    GoogleRowWritten(a, g, hash, freshId, now);
    GoogleRowWritten(b, g, hash, freshId, now);
    assert a.products == b.products;
    var t, x, y := GoogleRow(a, g, freshId), GoogleUserRow(a, g, hash, freshId, now),
        GoogleUserRow(b, g, hash, freshId, now);
    hide *;
    if t in a.users || FreeTier(a.products).Some? {
      TwinsPut(a, b, t, x, y, u);
      assert t in PutUser(a, t, x).users by { PutTwice(a, t, x, x); }
      TwinsIssue(PutUser(a, t, x), PutUser(b, t, y), t, now, u);
    }
  }

  lemma SameGoogleRow(a: Db, b: Db, g: GoogleUser, hash: string, freshId: string, now: nat, u: string)
    requires Inv(a) && Inv(b) && Twins(a, b, u) && freshId !in a.users
    ensures var t := GoogleRow(a, g, freshId);
            var x, y := GoogleUserRow(a, g, hash, freshId, now), GoogleUserRow(b, g, hash, freshId, now);
            GoogleRow(b, g, freshId) == t && Alike(x, y) && (t == u ==> x == y)
  {
    AsUnique(a);
    AsUnique(b);
    TwinsLookUp(a, b, u);
    var t := GoogleRow(a, g, freshId);
    assert t in a.users ==> Alike(a.users[t], b.users[t]);
    hide Inv, UniqueUsers;
  }

  lemma TwinsCode(a: Db, b: Db, t: string, code: string, order: Order, now: nat, u: string)
    requires Inv(a) && Inv(b) && Twins(a, b, u)
    ensures Twins(VerifyEmailChange(a, t, code, order, now).db, VerifyEmailChange(b, t, code, order, now).db, u)
  {
    AsUnique(a);
    AsUnique(b);
    TwinsKeys(a, b, u);
    if t in a.users {
      assert Alike(a.users[t], b.users[t]);
      if Refusal(a.users[t].emailVerificationToken, now).None? {
        CodeWrites(a, t, code, order, now);
        CodeWrites(b, t, code, order, now);
        RowsAfterCode(a, b, t, code, order, now, u);
        hide *;
        TwinsPut(a, b, t, RowAfterCode(a, t, code, order, now), RowAfterCode(b, t, code, order, now), u);
      }
    }
    hide Twins, StoreChecked, ChangeEmail, VerifyEmailChangeCode, Inv, UniqueUsers;
  }

  lemma RowsAfterCode(a: Db, b: Db, t: string, code: string, order: Order, now: nat, u: string)
    requires Twins(a, b, u) && t in a.users && Refusal(a.users[t].emailVerificationToken, now).None?
    ensures t in b.users && b.users[t].emailVerificationToken == a.users[t].emailVerificationToken
    ensures var x, y := RowAfterCode(a, t, code, order, now), RowAfterCode(b, t, code, order, now);
            Alike(x, y) && (t == u ==> x == y)
  {
    assert Alike(a.users[t], b.users[t]);
    var newEmail := a.users[t].emailVerificationToken.value.claims.newEmail;
    TwinsClash(a, b, t, ChangedUser(a.users[t], newEmail, now), ChangedUser(b.users[t], newEmail, now), u);
    hide Clashes, Refusal, VerifyEmailChangeCode;
  }

  lemma TwinsEmails(a: Db, b: Db, u: string)
    requires Twins(a, b, u)
    ensures a.users.Keys == b.users.Keys && forall v :: v in a.users ==> a.users[v].email == b.users[v].email
  {
    forall v | v in a.users ensures a.users[v].email == b.users[v].email {
      assert Alike(a.users[v], b.users[v]);
    }
  }

  lemma TwinsSignup(a: Db, b: Db, input: SignupInput, hash: string, freshId: string, now: nat, u: string)
    requires Inv(a) && Inv(b) && Twins(a, b, u) && freshId !in a.users
    ensures Twins(RegisterUser(a, input, hash, freshId, now).db, RegisterUser(b, input, hash, freshId, now).db, u)
  {
    TwinsEmails(a, b, u);
    SignupExactly(a, input, hash, freshId, now);
    SignupExactly(b, input, hash, freshId, now);
    var a', b' := RegisterUser(a, input, hash, freshId, now).db, RegisterUser(b, input, hash, freshId, now).db;
    assert a.products == b.products && u in a.users;
    hide Inv, RegisterUser, OnlyRow, Twins, FreeTier;
    if RegisterUser(a, input, hash, freshId, now).result.Ok? {
      assert RegisterUser(b, input, hash, freshId, now).result.Ok?;
      TwinsWrite(a, b, a', b', freshId, u);
    }
  }

  lemma TwinsLogout(a: Db, b: Db, t: string, clears: bool, now: nat, u: string)
    requires Inv(a) && Inv(b) && Twins(a, b, u)
    ensures Twins(RevokeUserRefreshToken(a, t, clears, now).db, RevokeUserRefreshToken(b, t, clears, now).db, u)
  {
    hide Inv, RevokeUserRefreshToken, Twins;
    TwinsRow(a, b, t, u);
    LogoutExactly(a, t, clears, now);
    LogoutExactly(b, t, clears, now);
    if t in a.users {
      TwinsPut(a, b, t, RevokeUserRefreshToken(a, t, clears, now).db.users[t],
               RevokeUserRefreshToken(b, t, clears, now).db.users[t], u);
    }
  }

  lemma TwinsRow(a: Db, b: Db, t: string, u: string)
    requires Twins(a, b, u)
    ensures t in a.users <==> t in b.users
    ensures u in a.users && a.products == b.products
    ensures t in a.users ==> Alike(a.users[t], b.users[t]) && (t == u ==> a.users[t] == b.users[t])
  {
    if t in a.users {
      assert Alike(a.users[t], b.users[t]);
    }
    assert a.users.Keys == b.users.Keys;
  }

  lemma TwinsVerification(a: Db, b: Db, p: Presented, clears: bool, now: nat, u: string)
    requires Inv(a) && Inv(b) && Twins(a, b, u)
    ensures Twins(VerifyUserEmail(a, p, clears, now).db, VerifyUserEmail(b, p, clears, now).db, u)
  {
    hide Inv, VerifyUserEmail, OnlyRow, Twins, Verifies;
    VerificationExactly(a, p, clears, now);
    VerificationExactly(b, p, clears, now);
    if p.Signed? {
      TwinsRow(a, b, p.token.userId, u);
      if VerifyUserEmail(a, p, clears, now).result.Ok? {
        TwinsWrite(a, b, VerifyUserEmail(a, p, clears, now).db, VerifyUserEmail(b, p, clears, now).db, p.token.userId,
                   u);
      }
    }
    assert Verifies(p, now) ==> p.Signed? by { Presents(p, now); }
  }

  lemma Presents(p: Presented, now: nat)
    ensures Verifies(p, now) ==> p.Signed?
  {
  }

  lemma TwinsResend(a: Db, b: Db, t: string, sent: bool, now: nat, u: string)
    requires Inv(a) && Inv(b) && Twins(a, b, u)
    ensures Twins(ResendVerificationEmail(a, t, sent, now).db, ResendVerificationEmail(b, t, sent, now).db, u)
  {
    hide Inv, ResendVerificationEmail, Twins;
    TwinsRow(a, b, t, u);
    ResendExactly(a, t, sent, now);
    ResendExactly(b, t, sent, now);
    if t in a.users && !a.users[t].emailVerified {
      TwinsPut(a, b, t, ResendVerificationEmail(a, t, sent, now).db.users[t],
               ResendVerificationEmail(b, t, sent, now).db.users[t], u);
    }
  }

  lemma TwinsReset(a: Db, b: Db, p: Presented, hash: string, clears: bool, now: nat, u: string)
    requires Inv(a) && Inv(b) && Twins(a, b, u)
    ensures Twins(ResetPassword(a, p, hash, clears, now).db, ResetPassword(b, p, hash, clears, now).db, u)
  {
    hide Inv, ResetPassword, OnlyRow, Twins, Verifies;
    ResetExactly(a, p, hash, clears, now);
    ResetExactly(b, p, hash, clears, now);
    Presents(p, now);
    if p.Signed? {
      TwinsRow(a, b, p.token.userId, u);
      if ResetPassword(a, p, hash, clears, now).result.Ok? {
        TwinsWrite(a, b, ResetPassword(a, p, hash, clears, now).db, ResetPassword(b, p, hash, clears, now).db,
                   p.token.userId, u);
      }
    }
  }

  lemma TwinsRequest(a: Db, b: Db, t: string, newEmail: string, code: string, sent: bool, now: nat, u: string)
    requires Inv(a) && Inv(b) && Twins(a, b, u)
    ensures Twins(RequestEmailChange(a, t, newEmail, code, sent, now).db,
                  RequestEmailChange(b, t, newEmail, code, sent, now).db, u)
  {
    hide Inv, RequestEmailChange, Twins;
    TwinsRow(a, b, t, u);
    TwinsEmails(a, b, u);
    RequestExactly(a, t, newEmail, code, sent, now);
    RequestExactly(b, t, newEmail, code, sent, now);
    assert t in a.users ==> a.users[t].email == b.users[t].email;
    if t in a.users && forall v :: v in a.users ==> a.users[v].email != newEmail {
      TwinsPut(a, b, t, RequestEmailChange(a, t, newEmail, code, sent, now).db.users[t],
               RequestEmailChange(b, t, newEmail, code, sent, now).db.users[t], u);
    }
  }

  lemma TwinsProfile(a: Db, b: Db, t: string, f: ProfileUpdates, now: nat, u: string)
    requires Inv(a) && Inv(b) && Twins(a, b, u)
    ensures Twins(UpdateUserProfile(a, t, f, now).db, UpdateUserProfile(b, t, f, now).db, u)
  {
    hide Inv, UpdateUserProfile, Twins, OnlyRow;
    TwinsRow(a, b, t, u);
    TwinsEmails(a, b, u);
    ProfileExactly(a, t, f, now);
    ProfileExactly(b, t, f, now);
    if UpdateUserProfile(a, t, f, now).result.Ok? {
      TwinsWrite(a, b, UpdateUserProfile(a, t, f, now).db, UpdateUserProfile(b, t, f, now).db, t, u);
    }
  }

  /** The same account call on both sides keeps twins. */
  lemma TwinsCall(a: Db, b: Db, c: Call, u: string)
    requires Inv(a) && Inv(b) && Twins(a, b, u) && c.freshId !in a.users && !c.action.Webhook?
    ensures Twins(Step(a, c), Step(b, c), u)
  {
    hide *;
    AccountStep(a, c);
    AccountStep(b, c);
    match c.action
    case Signup(input, hash) => TwinsSignup(a, b, input, hash, c.freshId, c.now, u);
    case GoogleLogin(google, hash) => TwinsGoogle(a, b, google, hash, c.freshId, c.now, u);
    case Login(email, matches) => TwinsLogin(a, b, email, matches, c.now, u);
    case Refresh(p) => TwinsRefresh(a, b, p, c.now, u);
    case Logout(t) => TwinsLogout(a, b, t, c.clears, c.now, u);
    case VerifyEmail(p) => TwinsVerification(a, b, p, c.clears, c.now, u);
    case ResendVerification(t) => TwinsResend(a, b, t, c.sent, c.now, u);
    case ResetPasswordWith(p, hash) => TwinsReset(a, b, p, hash, c.clears, c.now, u);
    case RequestChange(t, newEmail, code) => TwinsRequest(a, b, t, newEmail, code, c.sent, c.now, u);
    case VerifyChange(t, code, order) => TwinsCode(a, b, t, code, order, c.now, u);
    case UpdateProfile(t, f) => TwinsProfile(a, b, t, f, c.now, u);
  }

  lemma AccountStep(db: Db, c: Call)
    requires !c.action.Webhook?
    ensures match c.action
            case Signup(input, hash) => Step(db, c) == RegisterUser(db, input, hash, c.freshId, c.now).db
            case GoogleLogin(google, hash) => Step(db, c)
                == AuthenticateWithGoogle(db, google, hash, c.freshId, c.now).db
            case Login(email, matches) => Step(db, c) == AuthenticateUser(db, email, matches, c.now).db
            case Refresh(p) => Step(db, c) == RefreshAccessToken(db, p, c.now).db
            case Logout(t) => Step(db, c) == RevokeUserRefreshToken(db, t, c.clears, c.now).db
            case VerifyEmail(p) => Step(db, c) == VerifyUserEmail(db, p, c.clears, c.now).db
            case ResendVerification(t) => Step(db, c) == ResendVerificationEmail(db, t, c.sent, c.now).db
            case ResetPasswordWith(p, hash) => Step(db, c) == ResetPassword(db, p, hash, c.clears, c.now).db
            case RequestChange(t, newEmail, code) =>
              Step(db, c) == RequestEmailChange(db, t, newEmail, code, c.sent, c.now).db
            case VerifyChange(t, code, order) => Step(db, c) == VerifyEmailChange(db, t, code, order, c.now).db
            case UpdateProfile(t, f) => Step(db, c) == UpdateUserProfile(db, t, f, c.now).db
  {
    hide RegisterUser, AuthenticateWithGoogle, AuthenticateUser, RefreshAccessToken, RevokeUserRefreshToken,
         VerifyUserEmail, ResendVerificationEmail, ResetPassword, RequestEmailChange, VerifyEmailChange,
         UpdateUserProfile;
  }

  // ------------------------------------------------------------- runs

  /** The calls without the deliveries for other users' subscriptions. */
  ghost function OwnCalls(owner: string -> string, email: string, calls: seq<Call>): seq<Call> {
    if calls == [] then []
    else (if calls[0].action.Webhook? && !IsOwn(owner, email, calls[0].action.event) then [] else [calls[0]])
         + OwnCalls(owner, email, calls[1..])
  }

  /** The user has the same email all along. */
  ghost predicate EmailStays(db: Db, calls: seq<Call>, u: string, email: string)
    decreases |calls|
  {
    && u in db.users && db.users[u].email == email
    && (calls != [] ==> EmailStays(Step(db, calls[0]), calls[1..], u, email))
  }

  ghost predicate BilledCall(products: seq<Product>, owner: string -> string, c: Call) {
    c.action.Webhook? ==> Billed(products, owner, c.action.event)
  }

  ghost predicate AllBilled(products: seq<Product>, owner: string -> string, calls: seq<Call>) {
    forall c :: c in calls ==> BilledCall(products, owner, c)
  }

  lemma AccountKeepsOwnRows(db: Db, c: Call, owner: string -> string, u: string)
    requires Inv(db) && Allowed(db, c) && OwnRows(db, owner, u) && !c.action.Webhook?
    requires u in Step(db, c).users && Step(db, c).users[u].email == db.users[u].email
    ensures OwnRows(Step(db, c), owner, u)
  {
    AccountCallMoves(db, c);
    hide Inv, Step, Allowed, Moves, UniqueUsers;
  }

  /** An account call, or a delivery of the user's own, happens alike on both sides. */
  lemma TwinsStep(a: Db, b: Db, c: Call, owner: string -> string, u: string)
    requires Inv(a) && Inv(b) && Twins(a, b, u) && OwnRows(a, owner, u) && OwnRows(b, owner, u)
    requires Allowed(a, c) && BilledCall(a.products, owner, c)
    requires c.action.Webhook? ==> IsOwn(owner, a.users[u].email, c.action.event)
    requires u in Step(a, c).users && Step(a, c).users[u].email == a.users[u].email
    ensures Allowed(b, c) && Twins(Step(a, c), Step(b, c), u)
    ensures OwnRows(Step(a, c), owner, u) && OwnRows(Step(b, c), owner, u)
  {
    TwinsKeys(a, b, u);
    if c.action.Webhook? {
      WebhookTwins(a, b, c, owner, u);
    } else {
      assert c.freshId !in a.users && Allowed(b, c);
      assert a.users[u] == b.users[u];
      hide Allowed, Inv, OwnRows, BilledCall;
      TwinsCall(a, b, c, u);
      assert u in Step(b, c).users && Step(b, c).users[u] == Step(a, c).users[u];
      hide *;
      AccountKeepsOwnRows(a, c, owner, u);
      AccountKeepsOwnRows(b, c, owner, u);
    }
  }

  lemma WebhookTwins(a: Db, b: Db, c: Call, owner: string -> string, u: string)
    requires Inv(a) && Inv(b) && Twins(a, b, u) && OwnRows(a, owner, u) && OwnRows(b, owner, u)
    requires Allowed(a, c) && BilledCall(a.products, owner, c)
    requires c.action.Webhook? && IsOwn(owner, a.users[u].email, c.action.event)
    ensures Allowed(b, c) && Twins(Step(a, c), Step(b, c), u)
    ensures OwnRows(Step(a, c), owner, u) && OwnRows(Step(b, c), owner, u)
  {
    var d := DeliveryOf(c);
    assert d.event == c.action.event && c.freshId !in a.users && a.users.Keys == b.users.Keys
        && a.products == b.products;
    assert a.users[u].email == b.users[u].email;
    assert Billed(a.products, owner, d.event);
    WebhookCall(a, c);
    AsKeyed(b);
    TwinsDeliver(a, b, d, owner, u);
    WebhookAllowed(b, c);
    hide *;
    WebhookCall(b, c);
    DeliveredKeepsOwnRows(a, d, owner, u);
    DeliveredKeepsOwnRows(b, d, owner, u);
  }

  lemma WebhookAllowed(db: Db, c: Call)
    requires c.action.Webhook? && c.freshId !in db.users && Possible(db, DeliveryOf(c))
    ensures Allowed(db, c)
  {
    hide Possible;
  }

  lemma TwinsSkip(a: Db, b: Db, c: Call, owner: string -> string, u: string)
    requires Inv(a) && Twins(a, b, u) && OwnRows(a, owner, u)
    requires Allowed(a, c) && BilledCall(a.products, owner, c)
    requires c.action.Webhook? && !IsOwn(owner, a.users[u].email, c.action.event)
    ensures Twins(Step(a, c), b, u) && OwnRows(Step(a, c), owner, u)
  {
    var d := DeliveryOf(c);
    assert d.event == c.action.event && Billed(a.products, owner, d.event);
    hide *;
    WebhookCall(a, c);
    TwinsIgnore(a, b, d, owner, u);
    DeliveredKeepsOwnRows(a, d, owner, u);
  }

  lemma {:induction false} ProjectionFromTwins(a: Db, b: Db, now: nat, since: nat, calls: seq<Call>,
                                               owner: string -> string, u: string)
    requires Inv(a) && Inv(b) && Twins(a, b, u) && OwnRows(a, owner, u) && OwnRows(b, owner, u)
    requires AllowedRun(a, now, calls) && since <= now && EmailStays(a, calls, u, a.users[u].email)
    requires AllBilled(a.products, owner, calls)
    ensures var own := OwnCalls(owner, a.users[u].email, calls);
            AllowedRun(b, since, own) && Twins(Run(a, calls), Run(b, own), u)
    decreases |calls|
  {
    if calls == [] {
    } else {
      var c, email := calls[0], a.users[u].email;
      var a', b', rest := Step(a, c), Step(b, c), calls[1..];
      hide *;
      assert u in a.users by { TwinsRow(a, b, u, u); }
      RunUnfolds(a, now, calls, owner, u);
      StepKeepsInv(a, c);
      if c.action.Webhook? && !IsOwn(owner, email, c.action.event) {
        TwinsSkip(a, b, c, owner, u);
        ProjectionFromTwins(a', b, c.now, since, rest, owner, u);
      } else {
        TwinsStep(a, b, c, owner, u);
        StepKeepsInv(b, c);
        ProjectionFromTwins(a', b', c.now, c.now, rest, owner, u);
        First(b, since, c, OwnCalls(owner, email, rest));
      }
    }
  }

  /** The first call of a run, and what is left of the run. */
  lemma RunUnfolds(a: Db, now: nat, calls: seq<Call>, owner: string -> string, u: string)
    requires Inv(a) && AllowedRun(a, now, calls) && u in a.users && EmailStays(a, calls, u, a.users[u].email)
              && calls != []
    requires AllBilled(a.products, owner, calls)
    ensures var c, a', email, rest := calls[0], Step(a, calls[0]), a.users[u].email, calls[1..];
            && Allowed(a, c) && now <= c.now && BilledCall(a.products, owner, c)
            && u in a'.users && a'.users[u].email == email && a'.products == a.products
            && Run(a, calls) == Run(a', rest) && AllowedRun(a', c.now, rest) && EmailStays(a', rest, u, email)
            && OwnCalls(owner, email, calls) ==
                 (if c.action.Webhook? && !IsOwn(owner, email, c.action.event) then OwnCalls(owner, email, rest)
                  else [c] + OwnCalls(owner, email, rest))
            && AllBilled(a'.products, owner, rest)
  {
    var a' := Step(a, calls[0]);
    StepKeepsInv(a, calls[0]);
    hide Inv, Step, Allowed, IsOwn, BilledCall;
    assert EmailStays(a', calls[1..], u, a.users[u].email);
    assert [] + OwnCalls(owner, a.users[u].email, calls[1..]) == OwnCalls(owner, a.users[u].email, calls[1..]);
  }

  /** Other users' subscriptions are invisible: in any run of calls of any kind in which the user keeps the email and
      each subscription id is billed to one email, the user ends with the same row, product and session included, and
      the same billing row, as when the deliveries for other users' subscriptions do not arrive at all. */
  lemma {:induction false} ProjectionOverCalls(db: Db, now: nat, calls: seq<Call>, owner: string -> string, u: string)
    requires Inv(db) && OwnRows(db, owner, u) && AllowedRun(db, now, calls)
    requires EmailStays(db, calls, u, db.users[u].email)
    requires AllBilled(db.products, owner, calls)
    ensures var own := OwnCalls(owner, db.users[u].email, calls);
            AllowedRun(db, now, own) && SameFor(u, Run(db, calls), Run(db, own))
  {
    assert Twins(db, db, u);
    hide Inv, OwnRows, AllowedRun, EmailStays;
    ProjectionFromTwins(db, db, now, now, calls, owner, u);
  }
}

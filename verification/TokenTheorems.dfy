/** Refresh rotation, the one pending email token, and the downgrade of expired subscriptions. */
module TokenTheorems {
  import opened Common
  import opened Tokens
  import opened Rows
  import opened Subscriptions
  import opened AuthService
  import opened EmailService
  import opened System

  // ------------------------------------------------------------- refresh rotation

  ghost predicate NotStored(db: Db, t: Token) {
    forall u :: u in db.users ==> db.users[u].refreshToken != Some(t)
  }

  lemma MovesKeepNotStored(db: Db, db': Db, t: Token, now: nat)
    requires Moves(db, db', now) && NotStored(db, t) && t.iat < Seconds(now)
    ensures NotStored(db', t)
  {
    forall u | u in db'.users ensures db'.users[u].refreshToken != Some(t) {
      if u in db.users {
        assert UserMoves(u, db.users[u], db'.users[u], now);
      } else {
        assert NewUser(db, u, db'.users[u], now);
      }
    }
  }

  lemma {:induction false} NeverStoredAgain(db: Db, now: nat, calls: seq<Call>, t: Token)
    requires Inv(db) && AllowedRun(db, now, calls) && NotStored(db, t) && t.iat < Seconds(now)
    ensures NotStored(Run(db, calls), t)
    decreases |calls|
  {
    if calls == [] {
    } else {
      StepKeepsInv(db, calls[0]);
      hide Step, Inv, Allowed, Moves, NotStored;
      MovesKeepNotStored(db, Step(db, calls[0]), t, calls[0].now);
      NeverStoredAgain(Step(db, calls[0]), calls[0].now, calls[1..], t);
    }
  }

  /** A lookup by refresh token can only return the user whom the token names. */
  lemma RefreshTokenNamesItsOwner(db: Db, t: Token)
    requires Inv(db)
    ensures UserBy(db, HasRefreshToken(t)).Some? ==> UserBy(db, HasRefreshToken(t)).value == t.userId
    ensures UserBy(db, HasRefreshToken(t)).Some? <==> t.userId in db.users && db.users[t.userId].refreshToken == Some(t)
  {
    var r := UserBy(db, HasRefreshToken(t));
    if r.Some? {
      assert OwnTokens(r.value, db.users[r.value]);
    } else if t.userId in db.users {
      assert !HasRefreshToken(t)(db.users[t.userId]);
    }
  }

  /** Redeeming a refresh token puts the new one in its place, on the row that the token names and on no other. */
  lemma RedeemedRow(db: Db, t: Token, now: nat)
    requires Inv(db) && RefreshAccessToken(db, Signed(t), now).result.Ok?
    ensures var reply := RefreshAccessToken(db, Signed(t), now);
            && t.userId in db.users && db.users[t.userId].refreshToken == Some(t)
            && reply == Reply(PutUser(db, t.userId, Issued(db, t.userId, now)), Ok(GenerateTokens(t.userId, now)))
  {
    RefreshTokenNamesItsOwner(db, t);
    IssueIsOneWrite(db, t.userId, now);
    hide IssueTokens, Inv;
  }

  /** A refused refresh changes nothing. */
  lemma FailedRefresh(db: Db, t: Token, now: nat)
    requires Inv(db) && RefreshAccessToken(db, Signed(t), now).result.Fail?
    ensures RefreshAccessToken(db, Signed(t), now).db == db
  {
    RefreshTokenNamesItsOwner(db, t);
    if UserBy(db, HasRefreshToken(t)).Some? {
      AsUnique(db);
      IssueIsOneWrite(db, t.userId, now);
    }
    hide IssueTokens, Inv;
  }

  /** A refresh token that is not the stored one of the user it names, once the second of its issue is over, is refused
      for ever after: so are the tokens that a login, a refresh or a logout has displaced. */
  lemma {:induction false} DisplacedTokenIsDead(db: Db, t: Token, now: nat, calls: seq<Call>, later: nat)
    requires Inv(db) && AllowedRun(db, now, calls) && t.iat < Seconds(now)
    requires t.userId in db.users ==> db.users[t.userId].refreshToken != Some(t)
    ensures RefreshAccessToken(Run(db, calls), Signed(t), later) == Reply(Run(db, calls), Fail(Unauthorized))
  {
    forall u | u in db.users ensures db.users[u].refreshToken != Some(t) {
      assert OwnTokens(u, db.users[u]);
    }
    hide Inv;
    NeverStoredAgain(db, now, calls, t);
    Refused(Run(db, calls), t, later);
  }

  /** A refresh token redeemed in a later second than that of its issue is refused for ever after. */
  lemma RedeemedTokenIsDead(db: Db, t: Token, now: nat, calls: seq<Call>, later: nat)
    requires Inv(db) && RefreshAccessToken(db, Signed(t), now).result.Ok? && t.iat < Seconds(now)
    requires AllowedRun(RefreshAccessToken(db, Signed(t), now).db, now, calls)
    ensures var db' := RefreshAccessToken(db, Signed(t), now).db;
            RefreshAccessToken(Run(db', calls), Signed(t), later) == Reply(Run(db', calls), Fail(Unauthorized))
  {
    RedeemedRow(db, t, now);
    RefreshKeepsInv(db, t, now);
    hide RefreshAccessToken, Inv;
    DisplacedTokenIsDead(RefreshAccessToken(db, Signed(t), now).db, t, now, calls, later);
  }

  lemma Refused(db: Db, t: Token, now: nat)
    requires NotStored(db, t)
    ensures RefreshAccessToken(db, Signed(t), now) == Reply(db, Fail(Unauthorized))
  {
    hide IssueTokens;
  }

  /** Redeemed twice in one moment, a refresh token is accepted the second time exactly when it was issued in that
      second: the token that replaces it is then the same one. */
  lemma RedeemedAgainExactly(db: Db, t: Token, now: nat)
    requires Inv(db) && RefreshAccessToken(db, Signed(t), now).result.Ok?
    ensures RefreshAccessToken(RefreshAccessToken(db, Signed(t), now).db, Signed(t), now).result.Ok? <==>
              t.iat == Seconds(now)
  {
    var db' := RefreshAccessToken(db, Signed(t), now).db;
    RedeemedRow(db, t, now);
    assert OwnTokens(t.userId, db.users[t.userId]) && Keyed(db);
    assert Verifies(Signed(t), now);
    RefreshKeepsInv(db, t, now);
    SameExpiry(db, db', t.userId, now);
    hide RefreshAccessToken, Inv, HasExpiredSubscription, Keyed;
    RefreshesWhenStored(db', t, now);
    RefreshesWhenStored(db, t, now);
  }

  lemma RefreshKeepsInv(db: Db, t: Token, now: nat)
    requires Inv(db) && RefreshAccessToken(db, Signed(t), now).result.Ok?
    ensures Inv(RefreshAccessToken(db, Signed(t), now).db)
  {
    RedeemedRow(db, t, now);
    RefreshTokenNamesItsOwner(db, t);
    AsUnique(db);
    IssueMoves(db, t.userId, now);
    hide Inv, IssueTokens;
    AccountMovesKeepInv(db, RefreshAccessToken(db, Signed(t), now).db, now);
  }

  /** A refresh token works exactly while it is the stored one of the user it names, unless it or the free tier is
      gone. */
  lemma RefreshesWhenStored(db: Db, t: Token, now: nat)
    requires Inv(db) && Verifies(Signed(t), now)
    ensures RefreshAccessToken(db, Signed(t), now).result.Ok? <==>
              && t.userId in db.users && db.users[t.userId].refreshToken == Some(t)
              && !(HasExpiredSubscription(db, t.userId, now) && FreeTier(db.products).None?)
  {
    RefreshTokenNamesItsOwner(db, t);
    AsUnique(db);
    hide Inv, IssueTokens, HasExpiredSubscription, UniqueUsers;
    if t.userId in db.users {
      IssueIsOneWrite(db, t.userId, now);
    }
  }

  lemma AsUnique(db: Db)
    requires Inv(db)
    ensures UniqueUsers(db)
  {
  }

  lemma SameExpiry(db: Db, db': Db, u: string, now: nat)
    requires Keyed(db) && db'.billings == db.billings
    ensures HasExpiredSubscription(db', u, now) == HasExpiredSubscription(db, u, now)
  {
  }

  // ------------------------------------------------------------- the pending token

  /** Nothing issued before second `n` is pending for the user. */
  ghost predicate PendingSince(db: Db, u: string, n: nat) {
    && u in db.users
    && (db.users[u].emailVerificationToken.Some? ==> db.users[u].emailVerificationToken.value.iat >= n)
  }

  lemma {:induction false} PendingStaysSince(db: Db, now: nat, calls: seq<Call>, u: string, n: nat)
    requires Inv(db) && AllowedRun(db, now, calls) && PendingSince(db, u, n) && n <= Seconds(now)
    ensures PendingSince(Run(db, calls), u, n)
    ensures db.users[u].emailVerified ==> Run(db, calls).users[u].emailVerified
    decreases |calls|
  {
    if calls == [] {
    } else {
      var db', rest := Step(db, calls[0]), calls[1..];
      StepKeepsInv(db, calls[0]);
      assert u in db'.users && UserMoves(u, db.users[u], db'.users[u], calls[0].now);
      assert Run(db, calls) == Run(db', rest) && AllowedRun(db', calls[0].now, rest) && now <= calls[0].now;
      hide Step, Inv, Allowed, Moves, AllowedRun, Run, RevokedOnFree;
      PendingStaysSince(db', calls[0].now, rest, u, n);
    }
  }

  /** A verified address never counts as unverified again. */
  lemma {:induction false} VerifiedForGood(db: Db, now: nat, calls: seq<Call>, u: string)
    requires Inv(db) && AllowedRun(db, now, calls) && u in db.users && db.users[u].emailVerified
    ensures u in Run(db, calls).users && Run(db, calls).users[u].emailVerified
  {
    PendingStaysSince(db, now, calls, u, 0);
  }

  lemma ResendStores(db: Db, u: string, sent: bool, now: nat)
    requires Inv(db) && u in db.users && !db.users[u].emailVerified
    ensures ResendVerificationEmail(db, u, sent, now).db
         == PutUser(db, u, db.users[u].(emailVerificationToken := Some(Sign(u, EmailVerification, Seconds(now),
                                                                            VERIFICATION_SECONDS)), updatedAt := now))
  {
    AsUnique(db);
    hide Inv, UniqueUsers, Clashes;
    NoClash(db, u, PatchUser(db.users[u], UserPatch(emailVerificationToken :=
              Set(Some(Sign(u, EmailVerification, Seconds(now), VERIFICATION_SECONDS)))), now));
  }

  lemma RequestStores(db: Db, u: string, newEmail: string, code: string, sent: bool, now: nat)
    requires Inv(db) && u in db.users && db.users[u].email != newEmail && UserBy(db, HasEmail(newEmail)).None?
    ensures RequestEmailChange(db, u, newEmail, code, sent, now).db
         == PutUser(db, u, db.users[u].(emailVerificationToken := Some(Sign(u, EmailChange(code, newEmail, 0),
                 Seconds(now), CHANGE_SECONDS)), updatedAt := now))
  {
    AsUnique(db);
    hide Inv, UniqueUsers, Clashes;
    NoClash(db, u, PatchUser(db.users[u], UserPatch(emailVerificationToken :=
              Set(Some(Sign(u, EmailChange(code, newEmail, 0), Seconds(now), CHANGE_SECONDS)))), now));
  }

  /** `db'` is `db` after the user's row got a new pending token of this moment, by a resent verification or a requested
      change. */
  ghost predicate PendingIssued(db: Db, db': Db, u: string, now: nat) {
    || (u in db.users && !db.users[u].emailVerified
        && exists sent :: db' == ResendVerificationEmail(db, u, sent, now).db)
    || (exists newEmail, code, sent ::
          && u in db.users && db.users[u].email != newEmail && UserBy(db, HasEmail(newEmail)).None?
          && db' == RequestEmailChange(db, u, newEmail, code, sent, now).db)
  }

  lemma IssuedIsPending(db: Db, db': Db, u: string, now: nat)
    requires Inv(db) && PendingIssued(db, db', u, now)
    ensures Inv(db') && PendingSince(db', u, Seconds(now))
  {
    hide Inv, ResendVerificationEmail, RequestEmailChange;
    AsUnique(db);
    if sent :| !db.users[u].emailVerified && db' == ResendVerificationEmail(db, u, sent, now).db {
      ResendStores(db, u, sent, now);
      ResendMoves(db, u, sent, now);
    } else {
      var newEmail, code, sent :| db.users[u].email != newEmail && UserBy(db, HasEmail(newEmail)).None?
                                  && db' == RequestEmailChange(db, u, newEmail, code, sent, now).db;
      RequestStores(db, u, newEmail, code, sent, now);
      RequestMoves(db, u, newEmail, code, sent, now);
    }
    AccountMovesKeepInv(db, db', now);
  }

  /** Issuing a pending token of either kind makes every link and every pending change of the user from an earlier
      second refused for good: the link is refused, and no such change is there for a code to confirm. */
  lemma {:induction false} EarlierPendingTokensAreDead(db: Db, db': Db, u: string, now: nat, calls: seq<Call>,
                                                       earlier: Token, clears: bool, later: nat)
    requires Inv(db) && PendingIssued(db, db', u, now) && AllowedRun(db', now, calls)
    requires earlier.userId == u && earlier.iat < Seconds(now)
    ensures u in Run(db', calls).users && Run(db', calls).users[u].emailVerificationToken != Some(earlier)
    ensures VerifyUserEmail(Run(db', calls), Signed(earlier), clears, later).result.Fail?
    ensures VerifyUserEmail(Run(db', calls), Signed(earlier), clears, later).db == Run(db', calls)
  {
    IssuedIsPending(db, db', u, now);
    PendingStaysSince(db', now, calls, u, Seconds(now));
    hide Inv, PendingIssued;
  }

  /** After a verification email was resent, the link sent before still works exactly when it was sent in the same
      second. */
  lemma ResentLinkExactly(db: Db, u: string, sent: bool, now: nat, earlier: Token, clears: bool)
    requires Inv(db) && u in db.users && !db.users[u].emailVerified
    requires db.users[u].emailVerificationToken == Some(earlier) && earlier.claims == EmailVerification
    ensures VerifyUserEmail(ResendVerificationEmail(db, u, sent, now).db, Signed(earlier), clears, now).result.Ok? <==>
              earlier.iat == Seconds(now)
  {
    assert OwnTokens(u, db.users[u]);
    ResendStores(db, u, sent, now);
    ResendMoves(db, u, sent, now);
    var db' := ResendVerificationEmail(db, u, sent, now).db;
    AccountMovesKeepInv(db, db', now);
    AsUnique(db');
    hide Inv, ResendVerificationEmail, UniqueUsers, Clashes;
    if u in db'.users {
      NoClash(db', u, PatchUser(db'.users[u],
                                UserPatch(emailVerified := Set(true), emailVerificationToken := Undefined(clears)),
                                    now));
    }
  }

  // ------------------------------------------------------------- the chain of codes

  ghost predicate ChainedSlot(slot: Option<Token>, now: nat) {
    slot.Some? && slot.value.claims.EmailChange? ==> InChain(slot.value) && slot.value.iat <= Seconds(now)
  }

  /** Every pending change is in the chain of a request no later than `now`. */
  ghost predicate Chained(db: Db, now: nat) {
    forall u :: u in db.users ==> ChainedSlot(db.users[u].emailVerificationToken, now)
  }

  lemma MovesKeepChained(db: Db, db': Db, before: nat, now: nat)
    requires Moves(db, db', now) && Chained(db, before) && before <= now
    ensures Chained(db', now)
  {
    forall u | u in db'.users ensures ChainedSlot(db'.users[u].emailVerificationToken, now) {
      if u in db.users {
        assert ChainedSlot(db.users[u].emailVerificationToken, before);
        assert UserMoves(u, db.users[u], db'.users[u], now);
      } else {
        assert NewUser(db, u, db'.users[u], now);
      }
    }
  }

  /** In every state that calls reach, each pending change has had at most five wrong codes and expires within 15
      minutes of its request. */
  lemma {:induction false} ReachableChains(db: Db, now: nat, calls: seq<Call>)
    requires Inv(db) && AllowedRun(db, now, calls) && Chained(db, now)
    ensures Chained(Run(db, calls), Clock(now, calls))
    decreases |calls|
  {
    if calls == [] {
    } else {
      StepKeepsInv(db, calls[0]);
      var db', rest := Step(db, calls[0]), calls[1..];
      assert now <= calls[0].now && AllowedRun(db', calls[0].now, rest) && Run(db, calls) == Run(db', rest);
      assert Clock(now, calls) == Clock(calls[0].now, rest);
      hide *;
      MovesKeepChained(db, db', now, calls[0].now);
      ReachableChains(db', calls[0].now, rest);
    }
  }

  /** A code sent for a pending change leaves the chain's next token in the slot, unless the address is changed after
      it. */
  lemma CheckStoresTry(db: Db, u: string, code: string, order: Order, now: nat)
    requires Inv(db) && u in db.users && db.users[u].emailVerificationToken.Some?
    requires db.users[u].emailVerificationToken.value.claims.EmailChange?
    ensures var reply := VerifyEmailChange(db, u, code, order, now);
            var t := db.users[u].emailVerificationToken.value;
            u in reply.db.users &&
            reply.db.users[u].emailVerificationToken ==
              if reply.result.Ok? && (order.CallerFirst? ==> code == t.claims.code) then None
              else Some(Try(t, code, now))
  {
    AsUnique(db);
    if Refusal(db.users[u].emailVerificationToken, now).None? {
      CodeWrites(db, u, code, order, now);
      hide VerifyEmailChange, Inv, UniqueUsers, Clashes;
    } else {
      hide Inv, UniqueUsers;
    }
  }

  // ------------------------------------------------------------- expired subscriptions

  /** The gate refuses a user as expired exactly when the calls that issue tokens would find the subscription
      expired. */
  lemma GateAgreesWithLogin(db: Db, u: string, now: nat)
    ensures BillingGate(db, u, now) == PaymentRequired <==> HasExpiredSubscription(db, u, now)
  {
  }

  lemma IssueDowngrades(db: Db, u: string, now: nat)
    requires Keyed(db) && u in db.users && IssueTokens(db, u, now).result.Ok?
    ensures var reply := IssueTokens(db, u, now);
            && reply.result.value.refreshToken.userId == u && reply.db.billings == db.billings
            && (BillingGate(reply.db, u, now) == PaymentRequired ==> OnFreeTier(reply.db, u))
            && (BillingGate(reply.db, u, now) != PaymentRequired ==>
                u in reply.db.users && reply.db.users[u].currentProductId == db.users[u].currentProductId)
  {
    IssueIsOneWrite(db, u, now);
    hide IssueTokens;
    GateAgreesWithLogin(db, u, now);
    SameGate(db, PutUser(db, u, Issued(db, u, now)), u, now);
    hide BillingGate, HasExpiredSubscription;
  }

  lemma SameGate(db: Db, db': Db, u: string, now: nat)
    requires Keyed(db) && db'.billings == db.billings
    ensures BillingGate(db', u, now) == BillingGate(db, u, now)
  {
  }

  /** A call that issues tokens to the user whom they name leaves a user whom the gate would refuse as expired
      on the free tier, and every billing row as it was. */
  ghost predicate Downgrades(db: Db, reply: Reply<SessionTokens>, now: nat) {
    reply.result.Ok? ==>
      var u := reply.result.value.refreshToken.userId;
      && u in reply.db.users && reply.db.users[u].refreshToken == Some(reply.result.value.refreshToken)
      && reply.db.billings == db.billings
      && (BillingGate(reply.db, u, now) == PaymentRequired ==> OnFreeTier(reply.db, u))
  }

  lemma IssueFulfils(db: Db, db': Db, u: string, now: nat)
    requires Keyed(db') && u in db'.users && db'.billings == db.billings
    ensures Downgrades(db, IssueTokens(db', u, now), now)
  {
    IssueIsOneWrite(db', u, now);
    if IssueTokens(db', u, now).result.Ok? {
      IssueDowngrades(db', u, now);
    }
    hide IssueTokens, BillingGate, OnFreeTier;
  }

  lemma TokenCallsDowngrade(db: Db, now: nat, email: string, passwordMatches: bool, p: Presented, g: GoogleUser,
                            hash: string, freshId: string)
    requires Inv(db) && freshId !in db.users
    ensures Downgrades(db, AuthenticateUser(db, email, passwordMatches, now), now)
    ensures Downgrades(db, RefreshAccessToken(db, p, now), now)
    ensures Downgrades(db, AuthenticateWithGoogle(db, g, hash, freshId, now), now)
  {
    forall u | u in db.users ensures Downgrades(db, IssueTokens(db, u, now), now) {
      IssueFulfils(db, db, u, now);
    }
    GoogleDowngrades(db, now, g, hash, freshId);
    hide Downgrades, IssueTokens, Inv, AuthenticateWithGoogle;
    FailureFulfils(db, Reply(db, Fail(Unauthorized)), now);
  }

  lemma FailureFulfils(db: Db, reply: Reply<SessionTokens>, now: nat)
    requires reply.result.Fail?
    ensures Downgrades(db, reply, now)
  {
  }

  lemma GoogleDowngrades(db: Db, now: nat, g: GoogleUser, hash: string, freshId: string)
    requires Inv(db) && freshId !in db.users
    ensures Downgrades(db, AuthenticateWithGoogle(db, g, hash, freshId, now), now)
  {
    var known, byEmail, free := UserBy(db, HasGoogleId(g.googleId)), UserBy(db, HasEmail(g.email)),
        FreeTier(db.products);
    assert Keyed(db);
    if known.Some? {
      IssueFulfils(db, db, known.value, now);
      hide Downgrades, IssueTokens;
    } else if byEmail.Some? {
      var linked := PatchUser(db.users[byEmail.value],
                              UserPatch(googleId := Set(Some(g.googleId)), emailVerified := Set(true)), now);
      if !Clashes(db, byEmail.value, linked) {
        PutKeepsUnique(db, byEmail.value, linked);
        IssueFulfils(db, PutUser(db, byEmail.value, linked), byEmail.value, now);
        hide Downgrades, IssueTokens;
      }
    } else if free.Some? {
      var user := User(g.email, g.fullName, "", 0, hash, Some(g.googleId), None, true, None, Some(free.value.id), now);
      if !Clashes(db, freshId, user) {
        PutKeepsUnique(db, freshId, user);
        IssueFulfils(db, PutUser(db, freshId, user), freshId, now);
        hide Downgrades, IssueTokens;
      }
    }
  }

  // ------------------------------------------------------------- when the address changes

  /** The row that a confirmation leaves: with the new address if it was written, and, unless that came last, with one
      more attempt if the code was wrong. The expiry of the reissued token is what was left of it, counted from
      `iat`. */
  ghost function Confirmed(a: User, t: Token, code: string, order: Order, written: bool, now: nat): User
    requires t.claims.EmailChange?
  {
    var more := Token(t.userId, t.claims.(attempts := t.claims.attempts + 1), t.iat, t.iat + (t.exp - now / 1000));
    var changed := a.(email := t.claims.newEmail, googleId := None, emailVerificationToken := None,
                      emailVerified := true,
                      updatedAt := now);
    if written then if order.CallerFirst? && code != t.claims.code then changed.(emailVerificationToken := Some(more))
        else changed
    else if code != t.claims.code then a.(emailVerificationToken := Some(more), updatedAt := now)
    else a
  }

  /** A code confirms a pending change by writing the new address. The write does not wait for the checker: it happens
      exactly when the pending change is open and the address free, unless a wrong code's rejection ends the process
      first. Without an open change nothing is written. */
  lemma AddressChangesExactly(db: Db, u: string, code: string, order: Order, now: nat)
    requires Inv(db) && u in db.users
    ensures var reply := VerifyEmailChange(db, u, code, order, now);
            var slot := db.users[u].emailVerificationToken;
            if !IsOpen(slot, now)
            then reply == Reply(db,
                                Fail(if slot.Some? && slot.value.exp <= now / 1000 then Unauthorized else BadRequest))
            else
              var t := slot.value;
              var free := forall v :: v in db.users && v != u ==> db.users[v].email != t.claims.newEmail;
              && (reply.result.Ok? <==> free && (order.CheckerOnly? ==> code == t.claims.code))
              && (reply.result.Fail? ==>
                    reply.result.error == if order.CheckerOnly? && code != t.claims.code then Internal else Conflict)
              && reply.db == PutUser(db, u, Confirmed(db.users[u], t, code, order, reply.result.Ok?, now))
  {
    hide VerifyEmailChange, Inv, UniqueUsers, Clashes, Refusal;
    AsUnique(db);
    OpenExactly(db.users[u].emailVerificationToken, now);
    if IsOpen(db.users[u].emailVerificationToken, now) {
      CodeWrites(db, u, code, order, now);
      CodeFails(db, u, code, order, now);
      AddressClash(db, u, db.users[u].emailVerificationToken.value.claims.newEmail, now);
    } else {
      CodeRefused(db, u, code, order, now);
    }
  }

  lemma CodeRefused(db: Db, u: string, code: string, order: Order, now: nat)
    requires u in db.users && Refusal(db.users[u].emailVerificationToken, now).Some?
    ensures VerifyEmailChange(db, u, code, order, now)
         == Reply(db, Fail(Refusal(db.users[u].emailVerificationToken, now).value))
  {
    hide Refusal;
  }

  lemma AddressClash(db: Db, u: string, newEmail: string, now: nat)
    requires u in db.users
    ensures Clashes(db, u, ChangedUser(db.users[u], newEmail, now)) <==>
              exists v :: v in db.users && v != u && db.users[v].email == newEmail
  {
  }

  lemma CodeFails(db: Db, u: string, code: string, order: Order, now: nat)
    requires UniqueUsers(db) && u in db.users && Refusal(db.users[u].emailVerificationToken, now).None?
    ensures var t, reply := db.users[u].emailVerificationToken.value, VerifyEmailChange(db, u, code, order, now);
            reply.result.Fail? ==>
              reply.result.error == if order.CheckerOnly? && code != t.claims.code then Internal else Conflict
  {
    hide Refusal;
  }
}

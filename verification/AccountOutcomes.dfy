/** Logins, refreshes and the billing gate in terms of the tables alone: who gets tokens, which tokens, when the product
    moves, and which error everybody else gets. */
module AccountOutcomes {
  import opened Common
  import opened Tokens
  import opened Rows
  import opened AuthService
  import opened System
  import opened TokenTheorems
  import opened CallOutcomes
  import WebhookOutcomes

  // ------------------------------------------------------------- expiry

  /** A row of the user has run out. */
  ghost predicate RunOut(db: Db, u: string, now: nat) {
    exists row :: row in db.billings && db.billings[row].userId == u && db.billings[row].expiresAt < now
  }

  /** The login-time check finds exactly the users with a row that has run out. */
  lemma ExpiredExactly(db: Db, u: string, now: nat)
    requires RowsOwned(db)
    ensures HasExpiredSubscription(db, u, now) <==> RunOut(db, u, now)
  {
  }

  /** The gate tells users without a row, users whose row has run out and users whose row runs. */
  lemma GateExactly(db: Db, u: string, now: nat)
    requires RowsOwned(db)
    ensures BillingGate(db, u, now) == NoBilling <==>
              forall row :: row in db.billings ==> db.billings[row].userId != u
    ensures BillingGate(db, u, now) == PaymentRequired <==> RunOut(db, u, now)
    ensures BillingGate(db, u, now) == Pass <==>
              exists row :: row in db.billings && db.billings[row].userId == u && db.billings[row].expiresAt >= now
  {
  }

  // ------------------------------------------------------------- tokens

  /** The session tokens of a moment: the user's own, without a purpose, for an hour and for seven days. */
  ghost function SessionOf(u: string, now: nat): SessionTokens {
    SessionTokens(Token(u, Session, now / 1000, now / 1000 + 60 * 60),
                  Token(u, Session, now / 1000, now / 1000 + 7 * 24 * 60 * 60))
  }

  lemma GeneratedExactly(u: string, now: nat)
    ensures GenerateTokens(u, now) == SessionOf(u, now)
  {
  }

  /** The user has been given tokens: the refresh token is stored, and the product is a free one if a row of the user
      has run out and the one before otherwise. Nothing else has changed. */
  ghost predicate Given(db: Db, u: string, now: nat, reply: Reply<SessionTokens>) {
    && u in db.users && u in reply.db.users
    && reply.result == Ok(SessionOf(u, now))
    && var product := reply.db.users[u].currentProductId;
       && (if RunOut(db, u, now) then WebhookOutcomes.IsFreeProduct(db.products, product)
           else product == db.users[u].currentProductId)
       && reply.db == Db(db.users[u := db.users[u].(currentProductId := product, updatedAt := now,
                                                    refreshToken := Some(SessionOf(u, now).refreshToken))],
                         db.billings, db.products)
  }

  /** What a user who is to get tokens gets: a failure, with nothing written, if a row of theirs has run out and no
      product is free. */
  ghost predicate Served(db: Db, u: string, now: nat, reply: Reply<SessionTokens>) {
    if RunOut(db, u, now) && !WebhookOutcomes.AnyFree(db.products) then reply == Reply(db, Fail(Internal))
    else Given(db, u, now, reply)
  }

  lemma IssuedExactly(db: Db, u: string, now: nat)
    requires Keyed(db) && u in db.users
    ensures Served(db, u, now, IssueTokens(db, u, now))
  {
    WebhookOutcomes.FreeTierExactly(db.products);
    ExpiredExactly(db, u, now);
    GeneratedExactly(u, now);
    IssueIsOneWrite(db, u, now);
    hide IssueTokens, HasExpiredSubscription, Keyed, FreeTier, WebhookOutcomes.Free, RunOut;
  }

  // ------------------------------------------------------------- the three calls

  /** A login with the email of a user and a matching password is served for that user; every other is refused. */
  lemma LoginOutcome(db: Db, email: string, passwordMatches: bool, now: nat)
    requires Inv(db)
    ensures var reply := AuthenticateUser(db, email, passwordMatches, now);
            && (forall u :: u in db.users && db.users[u].email == email && passwordMatches ==>
                Served(db, u, now, reply))
            && (!passwordMatches || (forall u :: u in db.users ==> db.users[u].email != email) ==>
                  reply == Reply(db, Fail(Unauthorized)))
  {
    var r := UserBy(db, HasEmail(email));
    AsKeyed(db);
    assert forall u :: u in db.users && db.users[u].email == email ==> HasEmail(email)(db.users[u]);
    OneByEmail(db);
    hide Inv, Keyed, IssueTokens, Served;
    if r.Some? {
      IssuedExactly(db, r.value, now);
    }
  }

  /** A refresh token that the server signed and that is live and stored on the row of the user it names is served for
      that user; every other is refused. */
  lemma RefreshOutcomeExactly(db: Db, p: Presented, now: nat)
    requires Inv(db)
    ensures var reply := RefreshAccessToken(db, p, now);
            if && p.Signed? && now / 1000 < p.token.exp
               && p.token.userId in db.users && db.users[p.token.userId].refreshToken == Some(p.token)
            then Served(db, p.token.userId, now, reply)
            else reply == Reply(db, Fail(Unauthorized))
  {
    AsKeyed(db);
    hide Inv, Keyed, IssueTokens, Served;
    if p.Signed? {
      RefreshTokenNamesItsOwner(db, p.token);
      if p.token.userId in db.users {
        IssuedExactly(db, p.token.userId, now);
      }
    }
  }

  /** A Google login with a known Google id is for the user who has it. */
  lemma KnownToGoogle(db: Db, g: GoogleUser, hash: string, freshId: string, u: string, now: nat)
    requires Inv(db) && freshId !in db.users && u in db.users && db.users[u].googleId == Some(g.googleId)
    ensures Served(db, u, now, AuthenticateWithGoogle(db, g, hash, freshId, now))
  {
    hide *;
    GoogleRowMeans(db, g, hash, freshId, now);
    GoogleServed(db, g, hash, freshId, now);
    PutSame(db, u);
  }

  /** With an unknown Google id and the email of a user, it links that user, verified from then on, even if no tokens
      can be given. */
  lemma LinkedByGoogle(db: Db, g: GoogleUser, hash: string, freshId: string, u: string, now: nat)
    requires Inv(db) && freshId !in db.users && forall v :: v in db.users ==> db.users[v].googleId != Some(g.googleId)
    requires u in db.users && db.users[u].email == g.email
    ensures var linked := db.users[u].(googleId := Some(g.googleId), emailVerified := true, updatedAt := now);
            Served(PutUser(db, u, linked), u, now, AuthenticateWithGoogle(db, g, hash, freshId, now))
  {
    hide *;
    GoogleRowMeans(db, g, hash, freshId, now);
    GoogleServed(db, g, hash, freshId, now);
  }

  /** With an unknown Google id and email, it creates a verified user on a free product, if there is one. */
  lemma NewFromGoogle(db: Db, g: GoogleUser, hash: string, freshId: string, now: nat)
    requires Inv(db) && freshId !in db.users
    requires forall v :: v in db.users ==> db.users[v].googleId != Some(g.googleId) && db.users[v].email != g.email
    ensures var reply := AuthenticateWithGoogle(db, g, hash, freshId, now);
            if !WebhookOutcomes.AnyFree(db.products) then reply == Reply(db, Fail(Internal))
            else exists product ::
              && WebhookOutcomes.IsFreeProduct(db.products, product)
              && Served(PutUser(db, freshId, User(g.email, g.fullName, "", 0, hash, Some(g.googleId), None, true, None,
                                                  product, now)), freshId, now, reply)
  {
    hide *;
    GoogleRowMeans(db, g, hash, freshId, now);
    GoogleServed(db, g, hash, freshId, now);
    FreeIsFree(db.products);
  }

  lemma PutSame(db: Db, u: string)
    requires u in db.users
    ensures PutUser(db, u, db.users[u]) == db
  {
  }

  lemma FreeIsFree(products: seq<Product>)
    ensures FreeTier(products).Some? ==> WebhookOutcomes.IsFreeProduct(products, Some(FreeTier(products).value.id))
    ensures FreeTier(products).Some? <==> WebhookOutcomes.AnyFree(products)
  {
    WebhookOutcomes.FreeTierExactly(products);
  }

  lemma GoogleRowMeans(db: Db, g: GoogleUser, hash: string, freshId: string, now: nat)
    requires Inv(db) && freshId !in db.users
    ensures var t, row := GoogleRow(db, g, freshId), GoogleUserRow(db, g, hash, freshId, now);
            && (forall u :: u in db.users && db.users[u].googleId == Some(g.googleId) ==> t == u && row == db.users[u])
            && ((forall u :: u in db.users ==> db.users[u].googleId != Some(g.googleId)) ==>
                  && (forall u :: u in db.users && db.users[u].email == g.email ==>
                        t == u && row == db.users[u].(googleId := Some(g.googleId), emailVerified := true,
                                                      updatedAt := now))
                  && ((forall u :: u in db.users ==> db.users[u].email != g.email) ==>
                        t == freshId && (FreeTier(db.products).Some? ==>
                          row == User(g.email, g.fullName, "", 0, hash, Some(g.googleId), None, true, None,
                                      Some(FreeTier(db.products).value.id), now))))
  {
    AsUnique(db);
    OneByEmail(db);
    hide Inv;
    var known, byEmail := UserBy(db, HasGoogleId(g.googleId)), UserBy(db, HasEmail(g.email));
    assert forall u :: u in db.users && db.users[u].googleId == Some(g.googleId) ==>
        HasGoogleId(g.googleId)(db.users[u]);
    assert forall u :: u in db.users && db.users[u].email == g.email ==> HasEmail(g.email)(db.users[u]);
    hide UniqueUsers;
    if known.Some? {
      assert db.users[known.value].googleId == Some(g.googleId);
      OneByGoogleId(db);
    }
  }

  lemma OneByGoogleId(db: Db)
    requires UniqueUsers(db)
    ensures forall u, v ::
              u in db.users && v in db.users && db.users[u].googleId.Some?
                  && db.users[u].googleId == db.users[v].googleId
              ==> u == v
  {
  }

  lemma GoogleServed(db: Db, g: GoogleUser, hash: string, freshId: string, now: nat)
    requires Inv(db) && freshId !in db.users
    ensures var t, reply := GoogleRow(db, g, freshId), AuthenticateWithGoogle(db, g, hash, freshId, now);
            if t !in db.users && FreeTier(db.products).None? then reply == Reply(db, Fail(Internal))
            else Served(PutUser(db, t, GoogleUserRow(db, g, hash, freshId, now)), t, now, reply)
  {
    hide *;
    GoogleIsWriteThenIssue(db, g, hash, freshId, now);
    GoogleRowWritten(db, g, hash, freshId, now);
    var t, row := GoogleRow(db, g, freshId), GoogleUserRow(db, g, hash, freshId, now);
    PutTwice(db, t, row, row);
    IssuedExactly(PutUser(db, t, row), t, now);
  }
}

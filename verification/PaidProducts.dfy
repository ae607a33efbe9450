/** When a user's current product is that of their billing row: exactly, after every run of calls. */
module PaidProducts {
  import opened Common
  import opened Rows
  import opened BillingService
  import opened WebhookEffects
  import opened Subscriptions
  import opened SubscriptionRuns
  import opened Payments
  import opened AuthService
  import opened System
  import opened CallOutcomes

  // ------------------------------------------------------------- one delivery

  /** The event was found to be about the row of `u`. */
  ghost predicate FindsRowOf(db: Db, d: Delivery, u: string) {
    && (d.event.InvoicePaymentFailed? || d.event.SubscriptionUpdated? || d.event.SubscriptionDeleted?)
    && d.event.subscription != "" && d.row.Some? && d.row.value in db.billings && db.billings[d.row.value].userId == u
  }

  /** After a revocation the user is on the free tier, which may be the product of the row. */
  ghost function AfterRevocation(db: Db, productId: string): Option<bool> {
    if FreeTier(db.products).None? then None else Some(productId == FreeTier(db.products).value.id)
  }

  /** Whether a delivery makes a user and their row agree, or disagree, or leaves that as it was. A payment makes them
      agree; so does an update to another known product that does not revoke; a revocation makes them disagree unless
      the row is on the free tier's product; and nothing else has a say, a re-activation with the same product
      included. */
  ghost function Verdict(db: Db, d: Delivery, u: string): Option<bool> {
    match d.event
    case InvoicePaid(_, _, _, _, _, _) => if PaysFor(db, d.event, u) then Some(true) else None
    case SubscriptionUpdated(_, periodEnd, _, priceId, status) =>
      if !FindsRowOf(db, d, u) || periodEnd == 0 then None
      else
        var known, before := ProductOfPrice(db, priceId), db.billings[d.row.value].productId;
        if Revokes(status) then AfterRevocation(db, if known == "" then before else known)
        else if known != "" && known != before then Some(true)
        else None
    case SubscriptionDeleted(_) =>
      if !FindsRowOf(db, d, u) then None else AfterRevocation(db, db.billings[d.row.value].productId)
    case _ => None
  }

  ghost function Settled(verdict: Option<bool>, before: bool): bool {
    if verdict.Some? then verdict.value else before
  }

  lemma WriteAgreement(db: Db, e: Effect, now: nat, u: string)
    requires RowsOwned(db) && OneUsersWrite(db, e) && ProductFollows(db, e) && u in db.users
    ensures var written := if e.Write? && e.row.userId == u && e.product.Some?
                           then Some(e.product.value == e.row.productId) else None;
            OwnsCurrentProduct(ApplyEffect(db, e, now), u) <==> Settled(written, OwnsCurrentProduct(db, u))
  {
    var db' := ApplyEffect(db, e, now);
    if e.Write? && e.row.userId == u {
      assert e.rowId in db'.billings && db'.billings[e.rowId] == e.row;
      assert e.rowId in db.billings ==> db.billings[e.rowId].userId == u;
    }
    assert forall i :: i in db.billings && (e.Write? ==> i != e.rowId) ==>
        i in db'.billings && db'.billings[i] == db.billings[i];
  }

  lemma VerdictOfEffect(db: Db, d: Delivery, u: string)
    requires Keyed(db) && Possible(db, d) && u in db.users
    ensures var e := EffectOf(db, d);
            Verdict(db, d, u) == if e.Write? && e.row.userId == u && e.product.Some?
                                 then Some(e.product.value == e.row.productId) else None
  {
    if d.event.InvoicePaid? {
      PaymentEffect(db, d);
      hide EffectOf, Keyed, Possible;
    } else {
      EffectOnFoundRow(db, d);
      hide Keyed, Possible, PaidEffect, FreeTier, ProductByPrice;
    }
  }

  /** Exactly when user and row agree after a delivery. */
  lemma AgreementAfterDelivery(db: Db, d: Delivery, u: string)
    requires Keyed(db) && Possible(db, d) && u in db.users
    ensures OwnsCurrentProduct(Delivered(db, d), u) <==> Settled(Verdict(db, d, u), OwnsCurrentProduct(db, u))
  {
    WebhookIsOneWrite(db, d);
    EffectShape(db, d);
    VerdictOfEffect(db, d, u);
    assert RowsOwned(db);
    hide *;
    WriteAgreement(db, EffectOf(db, d), d.now, u);
  }

  // ------------------------------------------------------------- one call

  /** The call finds the user's subscription expired and moves the user to the free tier. */
  ghost predicate ExpiryDowngrade(db: Db, c: Call, u: string) {
    IssuesTo(db, c, u) && HasExpiredSubscription(db, u, c.now) && FreeTier(db.products).Some?
  }

  /** What a call other than a webhook means for the product of a user and for the rows. */
  lemma AccountCallProduct(db: Db, c: Call, u: string)
    requires Inv(db) && Allowed(db, c) && u in db.users && !c.action.Webhook?
    ensures var db' := Step(db, c);
            && u in db'.users && db'.billings == db.billings && db'.products == db.products
            && db'.users[u].currentProductId ==
                 if ExpiryDowngrade(db, c, u) then Some(FreeTier(db.products).value.id)
                     else db.users[u].currentProductId
  {
    if IssuesTo(db, c, u) {
      IssuingCallsProduct(db, c, u);
    } else {
      OtherCallsKeepSession(db, c, u);
    }
    hide Step, Inv, IssuesTo, HasExpiredSubscription;
  }

  ghost function CallVerdict(db: Db, c: Call, u: string): Option<bool> {
    if c.action.Webhook? then Verdict(db, DeliveryOf(c), u)
    else if ExpiryDowngrade(db, c, u) && BillingOf(db, u).Some? then
      AfterRevocation(db, db.billings[BillingOf(db, u).value].productId)
    else None
  }

  lemma AgreementAfterCall(db: Db, c: Call, u: string)
    requires Inv(db) && Allowed(db, c) && u in db.users
    ensures u in Step(db, c).users
    ensures OwnsCurrentProduct(Step(db, c), u) <==> Settled(CallVerdict(db, c, u), OwnsCurrentProduct(db, u))
  {
    if c.action.Webhook? {
      AgreementAfterWebhook(db, c, u);
    } else {
      AccountCallProduct(db, c, u);
      assert RowsOwned(db);
      hide *;
      AgreementOfProduct(db, Step(db, c), c, u);
    }
    hide Step, Inv, Allowed, CallVerdict, OwnsCurrentProduct, Settled;
  }

  lemma AgreementAfterWebhook(db: Db, c: Call, u: string)
    requires Inv(db) && Allowed(db, c) && u in db.users && c.action.Webhook?
    ensures u in Step(db, c).users
    ensures OwnsCurrentProduct(Step(db, c), u) <==> Settled(CallVerdict(db, c, u), OwnsCurrentProduct(db, u))
  {
    var d := DeliveryOf(c);
    assert CallVerdict(db, c, u) == Verdict(db, d, u);
    hide *;
    WebhookCall(db, c);
    AgreementAfterDelivery(db, d, u);
    WebhookKeepsSessions(db, d, u);
  }

  lemma AgreementOfProduct(db: Db, db': Db, c: Call, u: string)
    requires RowsOwned(db) && u in db.users && !c.action.Webhook?
    requires u in db'.users && db'.billings == db.billings && db'.products == db.products
    requires db'.users[u].currentProductId ==
               if ExpiryDowngrade(db, c, u) then Some(FreeTier(db.products).value.id) else db.users[u].currentProductId
    ensures OwnsCurrentProduct(db', u) <==> Settled(CallVerdict(db, c, u), OwnsCurrentProduct(db, u))
  {
    hide IssuesTo;
  }

  /** The last call of a run that had a say, or else what was so before. */
  ghost predicate LastVerdict(db: Db, calls: seq<Call>, u: string, before: bool)
    decreases |calls|
  {
    if calls == [] then before
    else LastVerdict(Step(db, calls[0]), calls[1..], u, Settled(CallVerdict(db, calls[0], u), before))
  }

  /** After any run of calls of any kind, a user's current product is that of their own row exactly when the last call
      that had a say made it so, or, if none had, when it was so before. */
  lemma {:induction false} AgreementExactly(db: Db, now: nat, calls: seq<Call>, u: string)
    requires Inv(db) && AllowedRun(db, now, calls) && u in db.users
    ensures OwnsCurrentProduct(Run(db, calls), u) <==> LastVerdict(db, calls, u, OwnsCurrentProduct(db, u))
    decreases |calls|
  {
    if calls == [] {
    } else {
      StepKeepsInv(db, calls[0]);
      AgreementAfterCall(db, calls[0], u);
      hide Step, Inv, Allowed, OwnsCurrentProduct, CallVerdict, Settled;
      AgreementExactly(Step(db, calls[0]), calls[0].now, calls[1..], u);
    }
  }

  // ------------------------------------------------------------- from a payment on

  /** Nothing revokes one of the subscriptions, the user, under whatever email at the time, pays for no other, and no
      expiry downgrade happens. Every other call may come in between. */
  ghost predicate HarmlessRun(db: Db, calls: seq<Call>, u: string, subscriptions: set<string>)
    decreases |calls|
  {
    calls != [] ==>
      && u in db.users && Allowed(db, calls[0])
      && (calls[0].action.Webhook? ==> Harmless(db, calls[0].action.event, u, subscriptions))
      && (!calls[0].action.Webhook? ==> !ExpiryDowngrade(db, calls[0], u))
      && HarmlessRun(Step(db, calls[0]), calls[1..], u, subscriptions)
  }

  lemma HarmlessDelivery(db: Db, c: Call, u: string, subscriptions: set<string>)
    requires Inv(db) && Allowed(db, c) && Agrees(db, u, subscriptions)
    requires c.action.Webhook? && Harmless(db, c.action.event, u, subscriptions)
    ensures Agrees(Step(db, c), u, subscriptions)
  {
    assert DeliveryOf(c).event == c.action.event;
    hide *;
    WebhookCall(db, c);
    HarmlessKeepsAgreement(db, DeliveryOf(c), u, subscriptions);
  }

  lemma HarmlessAccountCall(db: Db, c: Call, u: string, subscriptions: set<string>)
    requires Inv(db) && Allowed(db, c) && Agrees(db, u, subscriptions)
    requires !c.action.Webhook? && !ExpiryDowngrade(db, c, u)
    ensures Agrees(Step(db, c), u, subscriptions)
  {
    AccountCallProduct(db, c, u);
    hide Step, Inv, Allowed, ExpiryDowngrade;
  }

  lemma {:induction false} AgreementKept(db: Db, calls: seq<Call>, u: string, subscriptions: set<string>)
    requires Inv(db) && Agrees(db, u, subscriptions) && HarmlessRun(db, calls, u, subscriptions)
    ensures Agrees(Run(db, calls), u, subscriptions)
    decreases |calls|
  {
    if calls == [] {
    } else {
      var c := calls[0];
      StepKeepsInv(db, c);
      if c.action.Webhook? {
        HarmlessDelivery(db, c, u, subscriptions);
      } else {
        HarmlessAccountCall(db, c, u, subscriptions);
      }
      hide Step, Inv, Allowed, Agrees, ExpiryDowngrade, Harmless;
      AgreementKept(Step(db, c), calls[1..], u, subscriptions);
    }
  }

  /** From a payment on, however sign-ups, logins, refreshes, profile and email changes and deliveries for anybody come
      in between, the user's current product is their row's product after every call, as long as nothing revokes one of
      the subscriptions, the user pays for no other, and no expiry downgrade happens. */
  lemma {:induction false} AgreementFromPaymentOn(db: Db, paid: Call, calls: seq<Call>, u: string,
                                                  subscriptions: set<string>)
    requires Inv(db) && Allowed(db, paid) && paid.action.Webhook? && PaysFor(db, paid.action.event, u)
    requires paid.action.event.subscription in subscriptions
    requires HarmlessRun(Step(db, paid), calls, u, subscriptions)
    ensures Agrees(Run(db, [paid] + calls), u, subscriptions)
  {
    PaidAgrees(db, paid, u, subscriptions);
    StepKeepsInv(db, paid);
    assert ([paid] + calls)[1..] == calls;
    assert Run(db, [paid] + calls) == Run(Step(db, paid), calls);
    hide *;
    AgreementKept(Step(db, paid), calls, u, subscriptions);
  }

  lemma PaidAgrees(db: Db, paid: Call, u: string, subscriptions: set<string>)
    requires Inv(db) && Allowed(db, paid) && paid.action.Webhook? && PaysFor(db, paid.action.event, u)
    requires paid.action.event.subscription in subscriptions
    ensures Agrees(Step(db, paid), u, subscriptions)
  {
    var d := DeliveryOf(paid);
    assert d.event.InvoicePaid? && u in db.users by { hide Inv, Allowed; }
    hide *;
    WebhookCall(db, paid);
    WebhookIsOneWrite(db, d);
    PaymentEffect(db, d);
    PaidWriteAgrees(db, EffectOf(db, d), d, subscriptions);
  }

  lemma PaidWriteAgrees(db: Db, e: Effect, d: Delivery, subscriptions: set<string>)
    requires e.Write? && Complete(db.products, d.event) && e.row == PaidRow(db, d, e.row.userId)
    requires e.product == Some(e.row.productId) && e.row.userId in db.users && d.event.subscription in subscriptions
    ensures Agrees(ApplyEffect(db, e, d.now), e.row.userId, subscriptions)
  {
    var db' := ApplyEffect(db, e, d.now);
    assert e.rowId in db'.billings && db'.billings[e.rowId] == e.row;
  }
}

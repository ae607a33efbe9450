/** Superseded subscriptions, agreement of user and row, repeated deliveries, and rollback. */
module SubscriptionRuns {
  import opened Common
  import opened Rows
  import opened BillingService
  import opened WebhookEffects
  import opened Subscriptions

  // ------------------------------------------------------------- superseded subscriptions

  ghost predicate NoRowFor(db: Db, subscription: string) {
    forall i :: i in db.billings ==> db.billings[i].externalSubscriptionId != subscription
  }

  predicate Concerns(e: Event, subscription: string) { !e.Unhandled? && e.subscription == subscription }

  function Without(ds: seq<Delivery>, subscription: string): seq<Delivery> {
    if ds == [] then []
    else (if Concerns(ds[0].event, subscription) then [] else [ds[0]]) + Without(ds[1..], subscription)
  }

  lemma NoRowStep(db: Db, d: Delivery, subscription: string)
    requires Keyed(db) && NoRowFor(db, subscription) && Possible(db, d)
    requires !(d.event.InvoicePaid? && d.event.subscription == subscription)
    ensures NoRowFor(Delivered(db, d), subscription)
    ensures Concerns(d.event, subscription) ==> Delivered(db, d) == db
  {
    WebhookIsOneWrite(db, d);
    EffectElsewhere(db, d, subscription);
    hide Delivered, EffectOf, Possible, Keyed;
  }

  /** What is written while no row carries the subscription is a row of another. */
  lemma EffectElsewhere(db: Db, d: Delivery, subscription: string)
    requires NoRowFor(db, subscription) && Possible(db, d)
    requires !(d.event.InvoicePaid? && d.event.subscription == subscription)
    ensures var e := EffectOf(db, d);
            e.Write? ==> e.row.externalSubscriptionId != subscription && !Concerns(d.event, subscription)
  {
    if !d.event.InvoicePaid? {
      EffectOnFoundRow(db, d);
    }
    hide UpdateEffect, Revoking, ProductByPrice;
  }

  /** While no row carries a subscription, its failures, updates and deletions leave no trace in any run,
      until a payment for it arrives. */
  lemma {:induction false} UncarriedIsInert(db: Db, ds: seq<Delivery>, subscription: string)
    requires Keyed(db) && NoRowFor(db, subscription) && PossibleRun(db, ds)
    requires forall d :: d in ds ==> !(d.event.InvoicePaid? && d.event.subscription == subscription)
    ensures PossibleRun(db, Without(ds, subscription))
    ensures DeliverAll(db, Without(ds, subscription)) == DeliverAll(db, ds)
    ensures NoRowFor(DeliverAll(db, ds), subscription)
    decreases |ds|
  {
    if ds == [] {
    } else {
      var d, rest := ds[0], Without(ds[1..], subscription);
      NoRowStep(db, d, subscription);
      DeliveredKeepsKeyed(db, d);
      hide Delivered, Possible, Keyed, NoRowFor;
      UncarriedIsInert(Delivered(db, d), ds[1..], subscription);
      if Concerns(d.event, subscription) {
        assert [] + rest == rest;
      } else {
        assert ([d] + rest)[1..] == rest;
      }
    }
  }

  /** A payment that moves the only row of a subscription to another one makes the old subscription inert. */
  lemma SupersededIsInert(db: Db, paid: Delivery, ds: seq<Delivery>, row: string)
    requires Keyed(db) && Possible(db, paid) && paid.event.InvoicePaid?
    requires row in db.billings && EffectOf(db, paid).Write? && EffectOf(db, paid).row.userId == db.billings[row].userId
    requires var superseded := db.billings[row].externalSubscriptionId;
             && paid.event.subscription != superseded
             && (forall i :: i in db.billings && i != row ==> db.billings[i].externalSubscriptionId != superseded)
             && (forall d :: d in ds ==> !(d.event.InvoicePaid? && d.event.subscription == superseded))
    requires PossibleRun(Delivered(db, paid), ds)
    ensures DeliverAll(Delivered(db, paid), Without(ds, db.billings[row].externalSubscriptionId))
              == DeliverAll(Delivered(db, paid), ds)
  {
    WebhookIsOneWrite(db, paid);
    DeliveredKeepsKeyed(db, paid);
    hide Delivered;
    assert EffectOf(db, paid).rowId == row;
    UncarriedIsInert(Delivered(db, paid), ds, db.billings[row].externalSubscriptionId);
  }

  // ------------------------------------------------------------- agreement of user and row

  /** The user's current product is that of their row, whose subscription is one of `subscriptions`. */
  ghost predicate Agrees(db: Db, userId: string, subscriptions: set<string>) {
    && userId in db.users
    && exists i :: i in db.billings && db.billings[i].userId == userId
        && db.billings[i].externalSubscriptionId in subscriptions
                   && db.users[userId].currentProductId == Some(db.billings[i].productId)
  }

  predicate Revocation(e: Event) {
    e.SubscriptionDeleted? || (e.SubscriptionUpdated? && Revokes(e.status))
  }

  /** The handler gives up before it writes: the event lacks what it needs, or the free tier is missing. */
  ghost predicate GivesUp(db: Db, e: Event)
    requires !e.Unhandled?
  {
    || e.subscription == "" || (e.SubscriptionUpdated? && e.periodEnd == 0)
    || (Revocation(e) && FreeTier(db.products).None?)
  }

  /** The event revokes none of the subscriptions, and is no payment of the user for another, unless the handler
      rejects it. */
  ghost predicate Harmless(db: Db, e: Event, userId: string, subscriptions: set<string>) {
    && (Revocation(e) && !GivesUp(db, e) ==> e.subscription !in subscriptions)
    && (PaysFor(db, e, userId) ==> e.subscription in subscriptions)
  }

  lemma WriteKeepsAgreement(db: Db, e: Effect, now: nat, userId: string, subscriptions: set<string>)
    requires RowsOwned(db) && OneUsersWrite(db, e) && Agrees(db, userId, subscriptions)
    requires e.Write? && e.row.userId == userId ==>
               && (e.product.None? ==> e.rowId in db.billings && e.row.productId == db.billings[e.rowId].productId)
               && (e.product.Some? ==> e.product.value == e.row.productId)
               && e.row.externalSubscriptionId in subscriptions
    ensures Agrees(ApplyEffect(db, e, now), userId, subscriptions)
    ensures ApplyEffect(db, e, now).users[userId].email == db.users[userId].email
  {
    var db' := ApplyEffect(db, e, now);
    var i :| i in db.billings && db.billings[i].userId == userId
        && db.billings[i].externalSubscriptionId in subscriptions
             && db.users[userId].currentProductId == Some(db.billings[i].productId);
    assert i in db'.billings && db'.billings[i].userId == userId;
  }

  lemma HarmlessEffect(db: Db, d: Delivery, userId: string, subscriptions: set<string>)
    requires Keyed(db) && Possible(db, d) && Agrees(db, userId, subscriptions)
    requires Harmless(db, d.event, userId, subscriptions)
    ensures var e := EffectOf(db, d);
            e.Write? && e.row.userId == userId ==>
              && (e.product.None? ==> e.rowId in db.billings && e.row.productId == db.billings[e.rowId].productId)
              && (e.product.Some? ==> e.product.value == e.row.productId)
              && e.row.externalSubscriptionId in subscriptions
  {
  }

  /** A delivery that revokes none of the subscriptions, and pays for no other, keeps the agreement. */
  lemma HarmlessKeepsAgreement(db: Db, d: Delivery, userId: string, subscriptions: set<string>)
    requires Keyed(db) && Possible(db, d) && Agrees(db, userId, subscriptions)
    requires Harmless(db, d.event, userId, subscriptions)
    ensures Agrees(Delivered(db, d), userId, subscriptions)
    ensures Delivered(db, d).users[userId].email == db.users[userId].email
  {
    EffectShape(db, d);
    HarmlessEffect(db, d, userId, subscriptions);
    WebhookIsOneWrite(db, d);
    assert RowsOwned(db);
    hide Delivered, Possible, Keyed, EffectOf, ApplyEffect, OneUsersWrite, RowsOwned;
    WriteKeepsAgreement(db, EffectOf(db, d), d.now, userId, subscriptions);
  }

  // ------------------------------------------------------------- repeated deliveries

  function UserTimeless(u: User): User { u.(updatedAt := 0) }

  /** A deletion records when it was handled as the expiry of the row it cancels: `deleted` is its subscription. */
  function RowTimeless(b: Billing, deleted: Option<string>): Billing {
    b.(updatedAt := 0,
       expiresAt := if deleted == Some(b.externalSubscriptionId) && b.status == "canceled" then 0 else b.expiresAt)
  }

  function Deleted(e: Event): Option<string> { if e.SubscriptionDeleted? then Some(e.subscription) else None }

  ghost predicate SameButTimes(a: Db, b: Db, deleted: Option<string>) {
    && a.products == b.products
    && a.users.Keys == b.users.Keys && a.billings.Keys == b.billings.Keys
    && (forall i :: i in a.users ==> UserTimeless(a.users[i]) == UserTimeless(b.users[i]))
    && (forall i :: i in a.billings ==> RowTimeless(a.billings[i], deleted) == RowTimeless(b.billings[i], deleted))
  }

  /** The second delivery's effect on the result of the first is the first's, up to times. */
  ghost predicate Repeats(e: Effect, e': Effect, deleted: Option<string>) {
    (e.Nothing? && e'.Nothing?)
    || (e.Write? && e'.Write? && e'.rowId == e.rowId && RowTimeless(e'.row, deleted) == RowTimeless(e.row, deleted)
        && e'.row.userId == e.row.userId && (e'.product.None? || e'.product == e.product))
  }

  lemma RepeatedWrite(db: Db, e: Effect, e': Effect, now: nat, now': nat, deleted: Option<string>)
    requires Repeats(e, e', deleted)
    ensures SameButTimes(ApplyEffect(db, e, now), ApplyEffect(ApplyEffect(db, e, now), e', now'), deleted)
  {
  }

  lemma PaidRepeats(db: Db, d: Delivery, d': Delivery)
    requires Keyed(db) && Possible(db, d) && d.event == d'.event && d.event.InvoicePaid?
    ensures Repeats(EffectOf(db, d), EffectOf(ApplyEffect(db, EffectOf(db, d), d.now), d'), None)
  {
    var e, db' := EffectOf(db, d), ApplyEffect(db, EffectOf(db, d), d.now);
    if e.Write? {
      var email := d.event.customerEmail;
      assert UserBy(db', HasEmail(email)) == Some(e.row.userId) by {
        assert HasEmail(email)(db'.users[e.row.userId]);
      }
      assert BillingOf(db', e.row.userId) == Some(e.rowId) by {
        assert e.rowId in db'.billings && db'.billings[e.rowId].userId == e.row.userId;
      }
    } else if UserBy(db, HasEmail(d.event.customerEmail)).None? {
    }
  }

  lemma SubscriptionEventRepeats(db: Db, d: Delivery, d': Delivery)
    requires Keyed(db) && Possible(db, d) && d.event == d'.event && !d.event.InvoicePaid? && d.row == d'.row
    ensures Repeats(EffectOf(db, d), EffectOf(ApplyEffect(db, EffectOf(db, d), d.now), d'), Deleted(d.event))
  {
    var e, db' := EffectOf(db, d), ApplyEffect(db, EffectOf(db, d), d.now);
    EffectOnFoundRow(db, d);
    EffectShape(db, d);
    assert e.Write? ==> e.rowId in db'.billings && db'.billings[e.rowId] == e.row;
    assert e.Nothing? ==> db' == db;
    hide ApplyEffect, Keyed, Possible;
    RowEventRepeats(db, db', d, d');
  }

  lemma RowEventRepeats(db: Db, db': Db, d: Delivery, d': Delivery)
    requires d.event == d'.event && !d.event.InvoicePaid? && d.row == d'.row && db'.products == db.products
    requires d.event.Unhandled? || (d.row.Some? ==> Carries(db, d.row.value, d.event.subscription))
    requires EffectOf(db, d).Nothing? ==> db' == db
    requires var e := EffectOf(db, d);
             e.Write? ==>
               && d.row == Some(e.rowId) && e.rowId in db.billings && e.row.userId == db.billings[e.rowId].userId
               && e.rowId in db'.billings && db'.billings[e.rowId] == e.row
    ensures Repeats(EffectOf(db, d), EffectOf(db', d'), Deleted(d.event))
  {
    hide PaidEffect, FreeTier, ProductByPrice;
  }

  /** Handling an event a second time changes nothing but times, though it takes other branches the second time:
      a creation becomes an update, a change of product none. For events found by subscription id this asks that both
      lookups return the same row. */
  lemma DuplicateDelivery(db: Db, d: Delivery, d': Delivery)
    requires Keyed(db) && Possible(db, d) && Possible(Delivered(db, d), d') && d.event == d'.event
    requires d.event.InvoicePaid? || d.row == d'.row
    ensures SameButTimes(Delivered(db, d), Delivered(Delivered(db, d), d'), Deleted(d.event))
  {
    WebhookIsOneWrite(db, d);
    DeliveredKeepsKeyed(db, d);
    WebhookIsOneWrite(Delivered(db, d), d');
    hide Delivered, Possible;
    if d.event.InvoicePaid? {
      PaidRepeats(db, d, d');
    } else {
      SubscriptionEventRepeats(db, d, d');
    }
    hide *;
    RepeatedWrite(db, EffectOf(db, d), EffectOf(ApplyEffect(db, EffectOf(db, d), d.now), d'), d.now, d'.now,
                  Deleted(d.event));
  }

  // Two rows may carry one subscription id, if it was billed to two emails. Then the second lookup may return
  // the other row, and the exact condition for a repeated delivery to be harmless is the following.

  ghost predicate Carries(db: Db, row: string, subscription: string) {
    row in db.billings && db.billings[row].externalSubscriptionId == subscription
  }

  ghost predicate AtMostOneRowFor(db: Db, subscription: string) {
    forall i, j :: Carries(db, i, subscription) && Carries(db, j, subscription) ==> i == j
  }

  /** The row and its owner already look as the event asks. */
  ghost predicate Shows(db: Db, row: string, e: Event)
    requires row in db.billings
  {
    var b := db.billings[row];
    match e
    case InvoicePaymentFailed(_) => b.status == "past_due"
    case SubscriptionDeleted(_) => b.status == "canceled" && OnFreeTier(db, b.userId)
    case SubscriptionUpdated(_, periodEnd, cancelAt, priceId, status) =>
      && (ProductOfPrice(db, priceId) == "" || ProductOfPrice(db, priceId) == b.productId)
      && (status == "" || status == b.status)
      && b.expiresAt == 1000 * (if cancelAt != 0 then cancelAt else periodEnd)
      && (Revokes(status) ==> OnFreeTier(db, b.userId))
    case _ => true
  }

  ghost predicate HarmlessTwice(db: Db, d: Delivery, d': Delivery) {
    Possible(db, d) && Possible(Delivered(db, d), d') ==>
      SameButTimes(Delivered(db, d), Delivered(Delivered(db, d), d'), Deleted(d.event))
  }

  lemma WriteStays(db: Db, e: Effect, now: nat)
    requires RowsOwned(db) && OneUsersWrite(db, e)
    requires e.Write? ==>
              e.rowId in db.billings && e.row.externalSubscriptionId == db.billings[e.rowId].externalSubscriptionId
    ensures SubscriptionsKept(db, ApplyEffect(db, e, now))
    ensures forall i :: i in db.billings && (e.Write? ==> e.rowId != i) ==> RowKept(db, ApplyEffect(db, e, now), i)
  {
  }

  ghost predicate SubscriptionsKept(db: Db, db': Db) {
    && db'.products == db.products && db'.billings.Keys == db.billings.Keys
    && forall i :: i in db.billings ==> db'.billings[i].externalSubscriptionId == db.billings[i].externalSubscriptionId
  }

  ghost predicate RowKept(db: Db, db': Db, row: string)
    requires row in db.billings
  {
    && row in db'.billings && db'.billings[row] == db.billings[row]
    && (var u := db.billings[row].userId; u in db.users ==> u in db'.users && db'.users[u] == db.users[u])
  }

  lemma SubscriptionsStay(db: Db, d: Delivery)
    requires Keyed(db) && Possible(db, d) && !d.event.InvoicePaid?
    ensures SubscriptionsKept(db, Delivered(db, d))
    ensures forall i :: i in db.billings && d.row != Some(i) ==> RowKept(db, Delivered(db, d), i)
  {
    WebhookIsOneWrite(db, d);
    EffectShape(db, d);
    EffectOnFoundRow(db, d);
    assert RowsOwned(db);
    hide *;
    WriteStays(db, EffectOf(db, d), d.now);
  }

  /** Events found by subscription id write the row that was found, and leave it with its subscription and its user. */
  lemma EffectOnFoundRow(db: Db, d: Delivery)
    requires !d.event.InvoicePaid?
    ensures var e := EffectOf(db, d);
            e.Write? ==>
              && d.row == Some(e.rowId) && e.rowId in db.billings
              && e.row.externalSubscriptionId == db.billings[e.rowId].externalSubscriptionId
              && e.row.userId == db.billings[e.rowId].userId
  {
    hide PaidEffect;
  }

  ghost predicate LeavesAsIs(db: Db, e: Effect, deleted: Option<string>)
    requires e.Write? ==> e.rowId in db.billings && e.row.userId in db.users
  {
    e.Write? ==>
      && RowTimeless(e.row, deleted) == RowTimeless(db.billings[e.rowId], deleted)
      && (e.product.Some? ==> db.users[e.row.userId].currentProductId == e.product)
  }

  lemma LeavesAsIsExactly(db: Db, e: Effect, now: nat, deleted: Option<string>)
    requires e.Write? ==> e.rowId in db.billings && e.row.userId in db.users
    ensures SameButTimes(db, ApplyEffect(db, e, now), deleted) <==> LeavesAsIs(db, e, deleted)
  {
    if e.Write? {
      var db', u := ApplyEffect(db, e, now), e.row.userId;
      assert db'.billings[e.rowId] == e.row;
      assert e.product.Some? ==>
          UserTimeless(db'.users[u]) == UserTimeless(db.users[u]).(currentProductId := e.product);
    }
  }

  lemma ShowsIffLeavesAsIs(db: Db, d: Delivery)
    requires Keyed(db) && Possible(db, d) && !d.event.InvoicePaid? && !d.event.Unhandled? && d.row.Some?
    requires !GivesUp(db, d.event)
    ensures EffectOf(db, d).Write? && EffectOf(db, d).rowId in db.billings && EffectOf(db, d).row.userId in db.users
    ensures LeavesAsIs(db, EffectOf(db, d), Deleted(d.event)) <==> Shows(db, d.row.value, d.event)
  {
  }

  /** Handling the event on a row leaves everything but times as it was exactly when the row shows the outcome. */
  lemma ShownExactly(db: Db, d: Delivery)
    requires Keyed(db) && Possible(db, d) && !d.event.InvoicePaid? && !d.event.Unhandled? && d.row.Some?
    requires !GivesUp(db, d.event)
    ensures SameButTimes(db, Delivered(db, d), Deleted(d.event)) <==> Shows(db, d.row.value, d.event)
  {
    hide *;
    WebhookIsOneWrite(db, d);
    ShowsIffLeavesAsIs(db, d);
    LeavesAsIsExactly(db, EffectOf(db, d), d.now, Deleted(d.event));
  }

  lemma RowsStillThere(db: Db, d: Delivery, row: string)
    requires Keyed(db) && Possible(db, d) && !d.event.InvoicePaid? && !d.event.Unhandled? && row in db.billings
              && d.row != Some(row)
    ensures row in Delivered(db, d).billings
    ensures Shows(Delivered(db, d), row, d.event) == Shows(db, row, d.event)
    ensures GivesUp(Delivered(db, d), d.event) == GivesUp(db, d.event)
    ensures Carries(Delivered(db, d), row, d.event.subscription) == Carries(db, row, d.event.subscription)
  {
    SubscriptionsStay(db, d);
    hide Delivered, Possible;
  }

  lemma RowsFoundTwice(db: Db, d: Delivery, d': Delivery)
    requires Keyed(db) && d.event == d'.event && !d.event.InvoicePaid? && !d.event.Unhandled?
    requires Possible(db, d) && Possible(Delivered(db, d), d')
    ensures d.row.Some? <==> d'.row.Some?
    ensures d.row.Some? ==> Carries(db, d.row.value, d.event.subscription)
    ensures d'.row.Some? ==> Carries(db, d'.row.value, d.event.subscription)
  {
    SubscriptionsStay(db, d);
    hide Delivered, Keyed;
  }

  lemma SameTwice(db: Db, d: Delivery, d': Delivery)
    requires Keyed(db) && d.event == d'.event && !d.event.InvoicePaid? && !d.event.Unhandled?
    requires AtMostOneRowFor(db, d.event.subscription) || GivesUp(db, d.event)
             || forall i :: Carries(db, i, d.event.subscription) ==> Shows(db, i, d.event)
    ensures HarmlessTwice(db, d, d')
  {
    if Possible(db, d) && Possible(Delivered(db, d), d') {
      RowsFoundTwice(db, d, d');
      hide Possible, Delivered, Keyed;
      if d.row == d'.row {
        DuplicateDelivery(db, d, d');
      } else if GivesUp(db, d.event) {
        RowsStillThere(db, d, d'.row.value);
        GivenUp(db, d);
        GivenUp(Delivered(db, d), d');
      } else {
        assert Shows(db, d'.row.value, d.event);
        DeliveredKeepsKeyed(db, d);
        RowsStillThere(db, d, d'.row.value);
        hide *;
        ShownExactly(Delivered(db, d), d');
      }
    }
  }

  lemma GivenUp(db: Db, d: Delivery)
    requires !d.event.InvoicePaid? && !d.event.Unhandled? && Possible(db, d) && GivesUp(db, d.event)
    ensures Delivered(db, d) == db
  {
  }

  lemma OtherRowChanges(db: Db, e: Event, shy: string, other: string)
    requires Keyed(db) && !e.InvoicePaid? && !e.Unhandled? && !GivesUp(db, e)
    requires Carries(db, shy, e.subscription) && Carries(db, other, e.subscription) && other != shy
              && !Shows(db, shy, e)
    ensures !HarmlessTwice(db, Delivery(e, 0, "", Some(other)), Delivery(e, 0, "", Some(shy)))
  {
    var d, d' := Delivery(e, 0, "", Some(other)), Delivery(e, 0, "", Some(shy));
    RowsStillThere(db, d, shy);
    DeliveredKeepsKeyed(db, d);
    assert Possible(Delivered(db, d), d');
    assert Possible(db, d);
    hide Delivered, Possible, Shows, GivesUp, SameButTimes, Keyed;
    ShownExactly(Delivered(db, d), d');
  }

  /** For an event found by subscription id, a repeated delivery is harmless, whatever rows the lookups return, exactly
      when at most one row carries the id, or the handler gives up, or every row that carries it already shows the
      outcome. */
  lemma {:induction false} DuplicateDeliveryExact(db: Db, e: Event)
    requires Keyed(db) && !e.InvoicePaid? && !e.Unhandled?
    ensures (forall d: Delivery, d': Delivery :: d.event == e && d'.event == e ==> HarmlessTwice(db, d, d')) <==>
            (AtMostOneRowFor(db, e.subscription) || GivesUp(db, e)
             || forall i :: Carries(db, i, e.subscription) ==> Shows(db, i, e))
  {
    hide HarmlessTwice, GivesUp, Shows, Keyed;
    if || AtMostOneRowFor(db, e.subscription) || GivesUp(db, e)
       || forall i :: Carries(db, i, e.subscription) ==> Shows(db, i, e)
    {
      forall d: Delivery, d': Delivery | d.event == e && d'.event == e ensures HarmlessTwice(db, d, d') {
        SameTwice(db, d, d');
      }
    } else {
      var shy :| Carries(db, shy, e.subscription) && !Shows(db, shy, e);
      var i, j :| Carries(db, i, e.subscription) && Carries(db, j, e.subscription) && i != j;
      var other := if i == shy then j else i;
      OtherRowChanges(db, e, shy, other);
      assert Delivery(e, 0, "", Some(other)).event == e && Delivery(e, 0, "", Some(shy)).event == e;
    }
  }

  // ------------------------------------------------------------- rollback

  /** When no product is marked as the free tier, a revocation fails and the row it had already written is rolled
      back. */
  lemma RevocationRollsBack(db: Db, d: Delivery)
    requires Keyed(db) && Possible(db, d) && FreeTier(db.products).None? && Revocation(d.event)
    requires d.event.subscription != "" && d.row.Some? && (d.event.SubscriptionUpdated? ==> d.event.periodEnd != 0)
    ensures ProcessBillingWebhook(db, d) == Fail(Internal) && Delivered(db, d) == db
  {
  }
}

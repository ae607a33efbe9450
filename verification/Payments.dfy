/** Whom a payment reaches. The provider names a customer by email and a subscription by id; the handler finds the user
    by the email alone (back-end/src/services/billing.service.ts:9). */
module Payments {
  import opened Common
  import opened Rows
  import opened BillingService
  import opened WebhookEffects
  import opened Subscriptions
  import opened SubscriptionRuns

  /** What a payment makes of a row. */
  ghost function PaidRow(db: Db, d: Delivery, u: string): Billing
    requires Complete(db.products, d.event)
  {
    var e := d.event;
    Billing(u, ProductByPrice(db.products, e.priceId).value.id, e.subscription, e.customer, "active",
            1000 * e.periodEnd, d.now)
  }

  lemma PaymentEffect(db: Db, d: Delivery)
    requires Keyed(db) && Possible(db, d) && d.event.InvoicePaid?
    ensures forall u :: PaysFor(db, d.event, u) <==> EffectOf(db, d).Write? && EffectOf(db, d).row.userId == u
    ensures var e := EffectOf(db, d);
            e.Write? ==>
              && Complete(db.products, d.event) && e.row == PaidRow(db, d, e.row.userId)
              && e.product == Some(e.row.productId)
    ensures EffectOf(db, d).Write? && EffectOf(db, d).rowId in db.billings ==>
              db.billings[EffectOf(db, d).rowId].userId == EffectOf(db, d).row.userId
  {
    var r := UserBy(db, HasEmail(d.event.customerEmail));
    if r.None? {
      assert forall u :: u in db.users ==> !HasEmail(d.event.customerEmail)(db.users[u]);
    }
  }

  /** A renewal renews the row that carries its subscription exactly when the row's user still has the email that the
      invoice names. After a change of address it leaves that row and its user alone, and, unless somebody else has
      taken the old address, it fails and writes nothing at all. */
  lemma RenewalExactly(db: Db, d: Delivery, row: string)
    requires Keyed(db) && Possible(db, d) && Complete(db.products, d.event) && Carries(db, row, d.event.subscription)
    ensures var u := db.billings[row].userId;
            if db.users[u].email == d.event.customerEmail
            then row in Delivered(db, d).billings && Delivered(db, d).billings[row] == PaidRow(db, d, u)
            else RowKept(db, Delivered(db, d), row)
    ensures (forall u :: u in db.users ==> db.users[u].email != d.event.customerEmail) ==>
              ProcessBillingWebhook(db, d) == Fail(Internal) && Delivered(db, d) == db
  {
    PaymentEffect(db, d);
    WebhookIsOneWrite(db, d);
    EffectShape(db, d);
    RenewalWrite(db, EffectOf(db, d), d, row);
    if forall u :: u in db.users ==> db.users[u].email != d.event.customerEmail {
      NobodyPaid(db, d);
    }
    hide Delivered, EffectOf, ProcessBillingWebhook, Keyed, RowKept;
  }

  lemma RenewalWrite(db: Db, e: Effect, d: Delivery, row: string)
    requires Keyed(db) && OneUsersWrite(db, e) && Complete(db.products, d.event)
              && Carries(db, row, d.event.subscription)
    requires forall u :: PaysFor(db, d.event, u) <==> e.Write? && e.row.userId == u
    requires e.Write? ==> e.row == PaidRow(db, d, e.row.userId)
    ensures var u, db' := db.billings[row].userId, ApplyEffect(db, e, d.now);
            if db.users[u].email == d.event.customerEmail
                then row in db'.billings && db'.billings[row] == PaidRow(db, d, u)
            else RowKept(db, db', row)
  {
    assert PaysFor(db, d.event, db.billings[row].userId) <==>
        db.users[db.billings[row].userId].email == d.event.customerEmail;
  }

  lemma NobodyPaid(db: Db, d: Delivery)
    requires Complete(db.products, d.event) && forall u :: u in db.users ==> db.users[u].email != d.event.customerEmail
    ensures ProcessBillingWebhook(db, d) == Fail(Internal) && Delivered(db, d) == db
  {
    assert UserBy(db, HasEmail(d.event.customerEmail)).None?;
  }

  // ------------------------------------------------------------- one row per subscription

  ghost predicate OneRowEach(db: Db) {
    forall subscription: string :: AtMostOneRowFor(db, subscription)
  }

  /** Nothing in the tables keeps two rows from carrying one subscription. From a state in which none do, a delivery
      brings it about exactly when it is a payment for one user and the row of another already carries its
      subscription. */
  lemma TwoRowsExactly(db: Db, d: Delivery)
    requires Keyed(db) && Possible(db, d) && OneRowEach(db)
    ensures !OneRowEach(Delivered(db, d)) <==>
              exists u, row :: PaysFor(db, d.event, u) && Carries(db, row, d.event.subscription)
                  && db.billings[row].userId != u
  {
    WebhookIsOneWrite(db, d);
    EffectShape(db, d);
    if d.event.InvoicePaid? {
      PaymentEffect(db, d);
      var e := EffectOf(db, d);
      assert RowsOwned(db);
      hide Delivered, EffectOf, Keyed, Possible;
      if e.Write? {
        assert PaysFor(db, d.event, e.row.userId);
        WriteMakesTwoExactly(db, e, d.now);
      }
    } else {
      SubscriptionsStay(db, d);
      hide Delivered, EffectOf, Keyed, Possible;
      SameSubscriptions(db, Delivered(db, d));
    }
  }

  lemma SameSubscriptions(db: Db, db': Db)
    requires SubscriptionsKept(db, db') && OneRowEach(db)
    ensures OneRowEach(db')
  {
    forall subscription: string ensures AtMostOneRowFor(db', subscription) {
      assert AtMostOneRowFor(db, subscription);
      assert forall i :: Carries(db', i, subscription) ==> Carries(db, i, subscription);
    }
  }

  lemma OtherCarrier(db: Db, e: Effect, row: string)
    requires RowsOwned(db) && e.Write? && OneUsersWrite(db, e) && row in db.billings && row != e.rowId
    ensures db.billings[row].userId != e.row.userId
  {
  }

  lemma WriteMakesTwoExactly(db: Db, e: Effect, now: nat)
    requires RowsOwned(db) && OneRowEach(db) && e.Write? && OneUsersWrite(db, e)
    ensures !OneRowEach(ApplyEffect(db, e, now)) <==>
              exists row :: Carries(db, row, e.row.externalSubscriptionId) && db.billings[row].userId != e.row.userId
  {
    var db' := ApplyEffect(db, e, now);
    assert Carries(db', e.rowId, e.row.externalSubscriptionId);
    if row :| Carries(db, row, e.row.externalSubscriptionId) && db.billings[row].userId != e.row.userId {
      assert Carries(db', row, e.row.externalSubscriptionId);
      assert !AtMostOneRowFor(db', e.row.externalSubscriptionId);
    } else {
      forall subscription: string ensures AtMostOneRowFor(db', subscription) {
        assert AtMostOneRowFor(db, subscription);
        StillOneRow(db, e, now, subscription);
      }
    }
  }

  lemma StillOneRow(db: Db, e: Effect, now: nat, subscription: string)
    requires RowsOwned(db) && AtMostOneRowFor(db, subscription) && e.Write? && OneUsersWrite(db, e)
    requires forall row :: Carries(db, row, e.row.externalSubscriptionId) ==> db.billings[row].userId == e.row.userId
    ensures AtMostOneRowFor(ApplyEffect(db, e, now), subscription)
  {
    var db' := ApplyEffect(db, e, now);
    forall i, j | Carries(db', i, subscription) && Carries(db', j, subscription) && i != e.rowId ensures i == j {
      assert Carries(db, i, subscription);
      OtherCarrier(db, e, i);
      assert j != e.rowId;
      assert Carries(db, j, subscription);
    }
  }

  /** As long as every subscription is billed to one email and the rows stand with the users who have them, no two rows
      carry one subscription. */
  lemma BilledOnceMeansOneRow(db: Db, owner: string -> string)
    requires Keyed(db) && forall u :: u in db.users ==> OwnRows(db, owner, u)
    ensures OneRowEach(db)
  {
    forall subscription: string, i, j | Carries(db, i, subscription) && Carries(db, j, subscription) ensures i == j {
      assert OwnRows(db, owner, db.billings[i].userId);
    }
    assert forall subscription: string :: AtMostOneRowFor(db, subscription);
  }
}

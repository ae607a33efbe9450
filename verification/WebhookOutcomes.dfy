/** What each webhook event comes to, in terms of the tables alone: the outcome that the provider is told, the rows
    written and the fields in them, for every event and every state of the tables. */
module WebhookOutcomes {
  import opened Common
  import opened Rows
  import opened BillingService
  import opened WebhookEffects
  import opened Subscriptions

  // ------------------------------------------------------------- products

  ghost predicate Priced(products: seq<Product>, i: int, priceId: string) {
    0 <= i < |products| && products[i].externalPriceId == Some(priceId)
  }

  ghost predicate Free(products: seq<Product>, i: int) {
    0 <= i < |products| && products[i].isFreeTier
  }

  /** The lookup by price finds a product that carries the price, and none exactly when no product does. */
  lemma {:induction false} ProductByPriceExactly(products: seq<Product>, priceId: string)
    ensures ProductByPrice(products, priceId).None? <==> forall i :: !Priced(products, i, priceId)
    ensures ProductByPrice(products, priceId).Some? ==>
              exists i :: Priced(products, i, priceId) && products[i] == ProductByPrice(products, priceId).value
  {
    if products == [] {
    } else {
      var rest := products[1..];
      ProductByPriceExactly(rest, priceId);
      assert forall i :: Priced(products, i, priceId) && i != 0 ==> Priced(rest, i - 1, priceId);
      assert forall i :: Priced(rest, i, priceId) ==> Priced(products, i + 1, priceId);
      if i :| Priced(rest, i, priceId) && Some(rest[i]) == ProductByPrice(rest, priceId) {
        assert Priced(products, i + 1, priceId) && products[i + 1] == rest[i];
      }
      assert Priced(products, 0, priceId) <==> products[0].externalPriceId == Some(priceId);
    }
  }

  /** The lookup of the free tier finds a product marked as such, and none exactly when no product is. */
  lemma {:induction false} FreeTierExactly(products: seq<Product>)
    ensures FreeTier(products).None? <==> forall i :: !Free(products, i)
    ensures FreeTier(products).Some? ==> exists i :: Free(products, i) && products[i] == FreeTier(products).value
  {
    if products == [] {
    } else {
      var rest := products[1..];
      FreeTierExactly(rest);
      assert forall i :: Free(products, i) && i != 0 ==> Free(rest, i - 1);
      assert forall i :: Free(rest, i) ==> Free(products, i + 1);
      if i :| Free(rest, i) && Some(rest[i]) == FreeTier(rest) {
        assert Free(products, i + 1) && products[i + 1] == rest[i];
      }
      assert Free(products, 0) <==> products[0].isFreeTier;
    }
  }

  // ------------------------------------------------------------- invoice.paid

  /** The payment of `u`, for product `i`, is on record: in the row of `u`, or in a new one if there was none, and in
      the user's product. Nothing else has changed. */
  ghost predicate Booked(db: Db, d: Delivery, u: string, row: string, i: int, db': Db)
    requires d.event.InvoicePaid?
  {
    var e := d.event;
    && u in db.users && db.users[u].email == e.customerEmail && Priced(db.products, i, e.priceId)
    && (if row in db.billings then db.billings[row].userId == u
        else row == d.freshId && forall other :: other in db.billings ==> db.billings[other].userId != u)
    && db' == Db(
      db.users[u := db.users[u].(currentProductId := Some(db.products[i].id), updatedAt := d.now)],
      db.billings[row := Billing(u, db.products[i].id, e.subscription, e.customer, "active", 1000 * e.periodEnd,
                                 d.now)],
      db.products)
  }

  ghost predicate AnyPriced(products: seq<Product>, priceId: string) { exists i :: Priced(products, i, priceId) }

  ghost predicate AnyFree(products: seq<Product>) { exists i :: Free(products, i) }

  ghost predicate AnyNamed(db: Db, email: string) { exists u :: u in db.users && db.users[u].email == email }

  ghost predicate AnyBooked(db: Db, d: Delivery, db': Db)
    requires d.event.InvoicePaid?
  {
    exists u, row, i :: Booked(db, d, u, row, i, db')
  }

  /** A paid invoice without lines, or for a price that no product carries, is acknowledged and writes nothing; one that
      lacks the subscription, the price or the end of the period, or names an email that nobody has, fails and writes
      nothing; every other is booked. */
  lemma PaidOutcome(db: Db, d: Delivery)
    requires Keyed(db) && Possible(db, d) && d.event.InvoicePaid?
    ensures var e, r := d.event, ProcessBillingWebhook(db, d);
            && Delivered(db, d) == (if r.Ok? then r.value else db)
            && if !e.hasLine then r == Ok(db)
               else if e.subscription == "" || e.priceId == "" then r == Fail(Internal)
               else if !AnyPriced(db.products, e.priceId) then r == Ok(db)
               else if e.periodEnd == 0 || !AnyNamed(db, e.customerEmail) then r == Fail(Internal)
               else r.Ok? && AnyBooked(db, d, r.value)
  {
    var e := d.event;
    hide Keyed, RegisterUserBilling, ApplyEffect;
    ProductByPriceExactly(db.products, e.priceId);
    if e.hasLine && e.subscription != "" && e.priceId != "" && e.periodEnd != 0 && AnyPriced(db.products, e.priceId) {
      var product := ProductByPrice(db.products, e.priceId).value;
      var i :| Priced(db.products, i, e.priceId) && db.products[i] == product;
      Booking(db, d, Payment(e.customerEmail, product.id, e.customer, e.subscription, e.periodEnd), i);
    }
  }

  lemma Booking(db: Db, d: Delivery, input: Payment, i: int)
    requires Keyed(db) && d.event.InvoicePaid? && d.freshId !in db.billings && Priced(db.products, i, d.event.priceId)
    requires var e := d.event;
             input == Payment(e.customerEmail, db.products[i].id, e.customer, e.subscription, e.periodEnd)
    ensures var r := RegisterUserBilling(db, input, d.freshId, d.now);
            if AnyNamed(db, d.event.customerEmail) then r.Ok? && AnyBooked(db, d, r.value) else r == Fail(Internal)
  {
    var user := UserBy(db, HasEmail(input.userEmail));
    assert user.None? ==> forall u :: u in db.users ==> !HasEmail(input.userEmail)(db.users[u]);
    RegisterIsOneWrite(db, input, d.freshId, d.now);
    if user.Some? {
      var row := BillingOf(db, user.value);
      hide RegisterUserBilling, Keyed;
      assert Booked(db, d, user.value, if row.None? then d.freshId else row.value, i,
                    RegisterUserBilling(db, input, d.freshId, d.now).value);
    }
  }

  // ------------------------------------------------------------- subscription events

  /** The delivery found this row. */
  ghost predicate Found(db: Db, d: Delivery, row: string) {
    d.row == Some(row) && row in db.billings
  }

  /** The product that a row has after an update: that of the price, if it names a product, and else the one before. */
  ghost predicate ProductAfter(products: seq<Product>, priceId: string, before: string, after: string) {
    if priceId == "" || !AnyPriced(products, priceId) then after == before
    else exists i :: Priced(products, i, priceId) && after == if products[i].id == "" then before else products[i].id
  }

  ghost predicate IsFreeProduct(products: seq<Product>, id: Option<string>) {
    exists i :: Free(products, i) && id == Some(products[i].id)
  }

  /** The row has been written, and nothing of the users but the product and time of the row's user. */
  ghost predicate Written(db: Db, rowId: string, row: Billing, product: Option<string>, now: nat, db': Db) {
    && row.userId in db.users
    && db' == Db(db.users[row.userId := db.users[row.userId].(currentProductId := product, updatedAt := now)],
                 db.billings[rowId := row], db.products)
  }

  ghost predicate OnlyRowWritten(db: Db, rowId: string, row: Billing, db': Db) {
    db' == Db(db.users, db.billings[rowId := row], db.products)
  }

  /** The outcome of an update of a found row: a canceled or unpaid subscription takes the row's user to the free tier,
      another product takes the user there, and otherwise the user is left alone. */
  ghost predicate UpdatedTo(db: Db, d: Delivery, rowId: string, product: string, db': Db)
    requires d.event.SubscriptionUpdated? && rowId in db.billings
  {
    var e, b := d.event, db.billings[rowId];
    var row := Billing(b.userId, product, b.externalSubscriptionId, b.externalCustomerId,
                       if e.status == "" then b.status else e.status,
                       1000 * (if e.cancelAt != 0 then e.cancelAt else e.periodEnd), d.now);
    && ProductAfter(db.products, e.priceId, b.productId, product)
    && if e.status == "canceled" || e.status == "unpaid"
       then exists free :: IsFreeProduct(db.products, free) && Written(db, rowId, row, free, d.now, db')
       else if product != b.productId then Written(db, rowId, row, Some(product), d.now, db')
       else OnlyRowWritten(db, rowId, row, db')
  }

  /** An update that lacks the end of the period fails, one whose subscription no row carries is acknowledged, one that
      revokes while there is no free tier fails, all without a trace; every other is carried out. */
  lemma UpdateOutcome(db: Db, d: Delivery)
    requires Keyed(db) && Possible(db, d) && d.event.SubscriptionUpdated?
    ensures var e, r := d.event, ProcessBillingWebhook(db, d);
            && Delivered(db, d) == (if r.Ok? then r.value else db)
            && if e.periodEnd == 0 then r == Fail(Internal)
               else if e.subscription == "" || d.row.None? then r == Ok(db)
               else if (e.status == "canceled" || e.status == "unpaid") && !AnyFree(db.products) then
                 r == Fail(Internal)
               else
                 && r.Ok? && Found(db, d, d.row.value)
                 && exists product :: UpdatedTo(db, d, d.row.value, product, r.value)
  {
    var e := d.event;
    FreeTierExactly(db.products);
    if e.periodEnd != 0 && e.subscription != "" && d.row.Some? {
      UpdateCarriedOut(db, d);
    }
    hide UpdateBillingOnSubscriptionUpdated, UpdatedTo, Keyed;
  }

  lemma ProductOfPriceExactly(db: Db, priceId: string, before: string)
    ensures var p := ProductOfPrice(db, priceId);
            ProductAfter(db.products, priceId, before, if p == "" then before else p)
  {
    ProductByPriceExactly(db.products, priceId);
    hide ProductByPrice;
  }

  lemma UpdateCarriedOut(db: Db, d: Delivery)
    requires Keyed(db) && Possible(db, d) && d.event.SubscriptionUpdated?
    requires d.event.periodEnd != 0 && d.event.subscription != "" && d.row.Some?
    ensures var e, r := d.event, ProcessBillingWebhook(db, d);
            && Found(db, d, d.row.value)
            && if (e.status == "canceled" || e.status == "unpaid") && FreeTier(db.products).None?
                then r == Fail(Internal)
               else r.Ok? && exists product :: UpdatedTo(db, d, d.row.value, product, r.value)
  {
    var e, rowId := d.event, d.row.value;
    var b, p := db.billings[rowId], ProductOfPrice(db, e.priceId);
    var product := if p == "" then b.productId else p;
    var expiresAt := 1000 * (if e.cancelAt != 0 then e.cancelAt else e.periodEnd);
    var r := ProcessBillingWebhook(db, d);
    ProductOfPriceExactly(db, e.priceId, b.productId);
    FreeTierExactly(db.products);
    UpdateIsOneWrite(db, e.subscription, p, e.status, expiresAt, rowId, d.now);
    UpdateSucceeds(db, e.subscription, p, e.status, expiresAt, rowId, d.now);
    assert r == UpdateBillingOnSubscriptionUpdated(db, e.subscription, p, e.status, expiresAt, d.row, d.now);
    assert b.userId in db.users;
    assert FreeTier(db.products).Some? ==> IsFreeProduct(db.products, Some(FreeTier(db.products).value.id));
    hide IsFreeProduct, ProcessBillingWebhook, UpdateBillingOnSubscriptionUpdated, Keyed, ProductAfter, ProductOfPrice,
        FreeTier, Free;
    if r.Ok? {
      assert UpdatedTo(db, d, rowId, product, r.value);
    }
  }

  lemma UpdateSucceeds(db: Db, subscription: string, productId: string, status: string, expiresAt: int, rowId: string,
                       now: nat)
    requires Keyed(db) && subscription != "" && rowId in db.billings
    ensures var r := UpdateBillingOnSubscriptionUpdated(db, subscription, productId, status, expiresAt, Some(rowId),
                                                        now);
            if (status == "canceled" || status == "unpaid") && FreeTier(db.products).None? then r == Fail(Internal)
                else r.Ok?
  {
    var old_ := db.billings[rowId];
    var patch := BillingPatch(productId := SetUnlessEmpty(productId), status := SetUnlessEmpty(status),
                              expiresAt := Set(expiresAt));
    var db' := PutBilling(db, rowId, PatchBilling(old_, patch, now));
    var free := FreeTier(db.products);
    if free.Some? {
      ProductWrite(db', old_.userId, free.value.id, now);
    }
    ProductWrite(db', old_.userId, productId, now);
    hide Keyed, FreeTier;
  }

  /** A failed payment without a subscription fails; otherwise it only makes the found row past due. */
  lemma FailedPaymentOutcome(db: Db, d: Delivery)
    requires Possible(db, d) && d.event.InvoicePaymentFailed?
    ensures var r := ProcessBillingWebhook(db, d);
            && Delivered(db, d) == (if r.Ok? then r.value else db)
            && if d.event.subscription == "" then r == Fail(Internal)
               else if d.row.None? then r == Ok(db)
               else
                 && r.Ok? && Found(db, d, d.row.value)
                 && OnlyRowWritten(db, d.row.value, db.billings[d.row.value].(status := "past_due", updatedAt := d.now),
                                   r.value)
  {
  }

  /** A deletion cancels the found row as of now and takes its user to the free tier, or, without a free tier, fails
      without a trace. */
  lemma DeletionOutcome(db: Db, d: Delivery)
    requires Keyed(db) && Possible(db, d) && d.event.SubscriptionDeleted?
    ensures var r := ProcessBillingWebhook(db, d);
            && Delivered(db, d) == (if r.Ok? then r.value else db)
            && if d.event.subscription == "" || d.row.None? then r == Ok(db)
               else if !AnyFree(db.products) then r == Fail(Internal)
               else
                 && r.Ok? && Found(db, d, d.row.value)
                 && var row := db.billings[d.row.value].(status := "canceled", expiresAt := d.now, updatedAt := d.now);
                    exists free :: IsFreeProduct(db.products, free)
                        && Written(db, d.row.value, row, free, d.now, r.value)
  {
    FreeTierExactly(db.products);
    if d.event.subscription != "" && d.row.Some? && FreeTier(db.products).Some? {
      var row := db.billings[d.row.value].(status := "canceled", expiresAt := d.now, updatedAt := d.now);
      var free := FreeTier(db.products).value;
      ProductWrite(PutBilling(db, d.row.value, row), row.userId, free.id, d.now);
      assert IsFreeProduct(db.products, Some(free.id));
      assert row.userId in db.users;
      hide Keyed, FreeTier, Free, UpdateUserById;
      assert Written(db, d.row.value, row, Some(free.id), d.now, ProcessBillingWebhook(db, d).value);
    }
    hide Keyed, FreeTier, Free, UpdateUserById, IsFreeProduct, Written;
  }

  /** Every other event is acknowledged and writes nothing. */
  lemma UnhandledOutcome(db: Db, d: Delivery)
    requires d.event.Unhandled?
    ensures ProcessBillingWebhook(db, d) == Ok(db) && Delivered(db, d) == db
  {
  }

  /** A revocation in plain words: after a delivery that cancels a subscription or leaves it unpaid, or deletes it, the
      found row's user is on a product marked as the free tier. */
  lemma RevokedUserIsOnFreeTier(db: Db, d: Delivery)
    requires Keyed(db) && Possible(db, d) && AnyFree(db.products) && d.row.Some?
    requires d.event.SubscriptionDeleted?
             || (d.event.SubscriptionUpdated? && d.event.periodEnd != 0
                 && (d.event.status == "canceled" || d.event.status == "unpaid"))
    requires d.event.subscription != ""
    ensures var u := db.billings[d.row.value].userId;
            u in Delivered(db, d).users && IsFreeProduct(db.products, Delivered(db, d).users[u].currentProductId)
  {
    if d.event.SubscriptionDeleted? {
      DeletionOutcome(db, d);
    } else {
      UpdateOutcome(db, d);
    }
    hide Keyed, Possible, ProcessBillingWebhook, Delivered, IsFreeProduct, ProductAfter;
  }

  /** Any other status leaves every user's product alone when the price names no product, or the row's own. */
  lemma PlainUpdateKeepsProducts(db: Db, d: Delivery, u: string)
    requires Keyed(db) && Possible(db, d) && d.event.SubscriptionUpdated? && u in db.users
    requires d.event.status != "canceled" && d.event.status != "unpaid"
    requires d.row.Some? ==>
               forall p :: ProductAfter(db.products, d.event.priceId, db.billings[d.row.value].productId, p) ==>
                 p == db.billings[d.row.value].productId
    ensures u in Delivered(db, d).users && Delivered(db, d).users[u] == db.users[u]
  {
    UpdateOutcome(db, d);
    hide Keyed, Possible, ProcessBillingWebhook, Delivered, ProductAfter;
  }
}

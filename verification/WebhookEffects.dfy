/** The webhook handlers come to at most one atomic write: of a billing row, and of its owner's product. */
module WebhookEffects {
  import opened Common
  import opened Rows
  import opened BillingService

  /** What a delivery does: nothing, or one write of a billing row together with, if `product` is some,
      the current product of the row's user. */
  datatype Effect = Nothing | Write(rowId: string, row: Billing, product: Option<string>)

  /** The statuses of a subscription that is over. */
  predicate Revokes(status: string) { status == "canceled" || status == "unpaid" }

  ghost function Revoking(db: Db, rowId: string, row: Billing): Effect {
    if FreeTier(db.products).None? then Nothing else Write(rowId, row, Some(FreeTier(db.products).value.id))
  }

  /** The invoice has all that the handler asks for, and is for a known product. */
  predicate Complete(products: seq<Product>, e: Event) {
    && e.InvoicePaid? && e.hasLine && e.subscription != "" && e.priceId != "" && e.periodEnd != 0
    && ProductByPrice(products, e.priceId).Some?
  }

  /** The payment is booked on the row of `u`. */
  ghost predicate PaysFor(db: Db, e: Event, u: string) {
    Complete(db.products, e) && u in db.users && db.users[u].email == e.customerEmail
  }

  ghost function PaidEffect(db: Db, d: Delivery): Effect
    requires d.event.InvoicePaid?
  {
    var e := d.event;
    var user, product := UserBy(db, HasEmail(e.customerEmail)), ProductByPrice(db.products, e.priceId);
    if !Complete(db.products, e) || user.None? then Nothing
    else
      var row := BillingOf(db, user.value);
      Write(if row.None? then d.freshId else row.value,
            Billing(user.value, product.value.id, e.subscription, e.customer, "active", 1000 * e.periodEnd, d.now),
            Some(product.value.id))
  }

  /** The product of a price, if it names a known one. */
  function ProductOfPrice(db: Db, priceId: string): string {
    var product := if priceId == "" then None else ProductByPrice(db.products, priceId);
    if product.Some? then product.value.id else ""
  }

  ghost function UpdateEffect(db: Db, rowId: string, productId: string, status: string, expiresAt: int,
                              now: nat): Effect
    requires rowId in db.billings
  {
    var old_ := db.billings[rowId];
    var row := old_.(productId := if productId == "" then old_.productId else productId,
                     status := if status == "" then old_.status else status, expiresAt := expiresAt, updatedAt := now);
    if Revokes(status) then Revoking(db, rowId, row)
    else Write(rowId, row, if row.productId != old_.productId then Some(productId) else None)
  }

  ghost function EffectOf(db: Db, d: Delivery): Effect {
    if d.event.Unhandled? then Nothing
    else if d.event.InvoicePaid? then PaidEffect(db, d)
    else if d.event.subscription == "" || d.row.None? || d.row.value !in db.billings then Nothing
    else
      var old_ := db.billings[d.row.value];
      if d.event.InvoicePaymentFailed? then Write(d.row.value, old_.(status := "past_due", updatedAt := d.now), None)
      else if d.event.SubscriptionUpdated? then
        if d.event.periodEnd == 0 then Nothing
        else UpdateEffect(db, d.row.value, ProductOfPrice(db, d.event.priceId), d.event.status,
                          1000 * (if d.event.cancelAt != 0 then d.event.cancelAt else d.event.periodEnd), d.now)
      else Revoking(db, d.row.value, old_.(status := "canceled", expiresAt := d.now, updatedAt := d.now))
  }

  ghost function ApplyEffect(db: Db, e: Effect, now: nat): Db {
    if e.Nothing? then db
    else
      var db' := PutBilling(db, e.rowId, e.row);
      if e.product.None? || e.row.userId !in db.users then db'
      else PutUser(db', e.row.userId, db.users[e.row.userId].(currentProductId := e.product, updatedAt := now))
  }

  lemma ProductWrite(db: Db, userId: string, product: string, now: nat)
    requires UniqueUsers(db) && userId in db.users
    ensures UpdateUserById(db, userId, UserPatch(currentProductId := Set(Some(product))), now)
         == Ok(PutUser(db, userId, db.users[userId].(currentProductId := Some(product), updatedAt := now)))
  {
  }

  lemma PaidIsOneWrite(db: Db, d: Delivery)
    requires Keyed(db) && d.event.InvoicePaid?
    ensures Delivered(db, d) == ApplyEffect(db, EffectOf(db, d), d.now)
  {
    var e := d.event;
    if Complete(db.products, e) {
      var product := ProductByPrice(db.products, e.priceId).value;
      RegisterIsOneWrite(db, Payment(e.customerEmail, product.id, e.customer, e.subscription, e.periodEnd), d.freshId,
                         d.now);
    }
    hide Keyed, RegisterUserBilling;
  }

  lemma RegisterIsOneWrite(db: Db, input: Payment, freshId: string, now: nat)
    requires Keyed(db)
    ensures var r, user := RegisterUserBilling(db, input, freshId, now), UserBy(db, HasEmail(input.userEmail));
            if user.None? then r.Fail?
            else
              var row := BillingOf(db, user.value);
              r == Ok(ApplyEffect(db, Write(if row.None? then freshId else row.value,
                                            Billing(user.value, input.productId, input.externalSubscriptionId,
                                                    input.externalCustomerId, "active", 1000 * input.expiresAt, now),
                                            Some(input.productId)), now))
  {
    var user := UserBy(db, HasEmail(input.userEmail));
    if user.Some? {
      var row := BillingOf(db, user.value);
      var billing := Billing(user.value, input.productId, input.externalSubscriptionId, input.externalCustomerId,
                             "active", 1000 * input.expiresAt, now);
      ProductWrite(PutBilling(db, if row.None? then freshId else row.value, billing), user.value, input.productId, now);
    }
  }

  lemma RevocationIsOneWrite(db: Db, userId: string, rowId: string, row: Billing, now: nat)
    requires Keyed(db) && rowId in db.billings && row.userId == db.billings[rowId].userId == userId
    ensures var r := DowngradeToFreeTier(PutBilling(db, rowId, row), userId, now);
            (if r.Ok? then r.value else db) == ApplyEffect(db, Revoking(db, rowId, row), now)
  {
    var free := FreeTier(db.products);
    if free.Some? {
      ProductWrite(PutBilling(db, rowId, row), userId, free.value.id, now);
    }
  }

  lemma UpdateIsOneWrite(db: Db, subscription: string, productId: string, status: string, expiresAt: int, rowId: string,
                         now: nat)
    requires Keyed(db) && subscription != "" && rowId in db.billings
    ensures var r := UpdateBillingOnSubscriptionUpdated(db, subscription, productId, status, expiresAt, Some(rowId),
                                                        now);
            (if r.Ok? then r.value else db)
                == ApplyEffect(db, UpdateEffect(db, rowId, productId, status, expiresAt, now), now)
  {
    var old_ := db.billings[rowId];
    var patch := BillingPatch(productId := SetUnlessEmpty(productId), status := SetUnlessEmpty(status),
                              expiresAt := Set(expiresAt));
    var row := PatchBilling(old_, patch, now);
    if Revokes(status) {
      RevocationIsOneWrite(db, old_.userId, rowId, row, now);
    } else {
      ProductWrite(PutBilling(db, rowId, row), old_.userId, row.productId, now);
    }
  }

  lemma UpdatedIsOneWrite(db: Db, d: Delivery)
    requires Keyed(db) && Possible(db, d) && d.event.SubscriptionUpdated?
    ensures Delivered(db, d) == ApplyEffect(db, EffectOf(db, d), d.now)
  {
    hide UpdateEffect, Keyed;
    var e := d.event;
    if e.subscription != "" && d.row.Some? && e.periodEnd != 0 {
      hide UpdateBillingOnSubscriptionUpdated, ApplyEffect;
      var expiresAt := 1000 * (if e.cancelAt != 0 then e.cancelAt else e.periodEnd);
      UpdateIsOneWrite(db, e.subscription, ProductOfPrice(db, e.priceId), e.status, expiresAt, d.row.value, d.now);
      assert EffectOf(db, d)
          == UpdateEffect(db, d.row.value, ProductOfPrice(db, e.priceId), e.status, expiresAt, d.now);
      assert d.row == Some(d.row.value);
    }
  }

  lemma DeletedIsOneWrite(db: Db, d: Delivery)
    requires Keyed(db) && Possible(db, d) && d.event.SubscriptionDeleted?
    ensures Delivered(db, d) == ApplyEffect(db, EffectOf(db, d), d.now)
  {
    if d.event.subscription != "" && d.row.Some? {
      var old_ := db.billings[d.row.value];
      RevocationIsOneWrite(db, old_.userId, d.row.value,
                           old_.(status := "canceled", expiresAt := d.now, updatedAt := d.now), d.now);
    }
  }

  lemma OtherIsOneWrite(db: Db, d: Delivery)
    requires Keyed(db) && Possible(db, d) && (d.event.InvoicePaymentFailed? || d.event.Unhandled?)
    ensures Delivered(db, d) == ApplyEffect(db, EffectOf(db, d), d.now)
  {
  }

  /** The handlers' sequences of reads, writes, throws and rollbacks come to at most one atomic write of a
      row and its owner's product. */
  lemma WebhookIsOneWrite(db: Db, d: Delivery)
    requires Keyed(db) && Possible(db, d)
    ensures Delivered(db, d) == ApplyEffect(db, EffectOf(db, d), d.now)
  {
    hide *;
    if d.event.InvoicePaid? {
      PaidIsOneWrite(db, d);
    } else if d.event.SubscriptionUpdated? {
      UpdatedIsOneWrite(db, d);
    } else if d.event.SubscriptionDeleted? {
      DeletedIsOneWrite(db, d);
    } else {
      OtherIsOneWrite(db, d);
    }
  }
}

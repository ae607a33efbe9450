/** The four subscription transitions (back-end/src/services/billing.service.ts) and the webhook
    that drives them (back-end/src/controllers/billing.controller.ts).
    A failed call leaves the database as it was: the writes are in one transaction.
    The empty string stands for a missing or empty text and 0 for a missing or zero timestamp:
    the code tests both for truth. */
module BillingService {
  import opened Common
  import opened Rows

  function UnixTimestampToDate(seconds: int): int { seconds * 1000 }

  ghost function DowngradeToFreeTier(db: Db, userId: string, now: nat): Result<Db> {
    match FreeTier(db.products)
    case None => Fail(Internal)
    case Some(free) => UpdateUserById(db, userId, UserPatch(currentProductId := Set(Some(free.id))), now)
  }

  datatype Payment = Payment(userEmail: string, productId: string, externalCustomerId: string,
                             externalSubscriptionId: string, expiresAt: int)

  ghost function RegisterUserBilling(db: Db, input: Payment, freshId: string, now: nat): Result<Db> {
    match UserBy(db, HasEmail(input.userEmail))
    case None => Fail(Internal)
    case Some(userId) =>
      var expiresAt := UnixTimestampToDate(input.expiresAt);
      var written :=
        match BillingOf(db, userId)
        case None =>
          Ok(PutBilling(db, freshId, Billing(userId, input.productId, input.externalSubscriptionId,
                                             input.externalCustomerId, "active", expiresAt, now)))
        case Some(row) =>
          UpdateBillingById(db, row, BillingPatch(Set(input.productId), Set(input.externalSubscriptionId),
                                                  Set(input.externalCustomerId), Set("active"), Set(expiresAt)), now);
      if written.Fail? then written
      else UpdateUserById(written.value, userId, UserPatch(currentProductId := Set(Some(input.productId))), now)
  }

  function UpdateBillingOnPaymentFailed(db: Db, subscription: string, row: Option<string>, now: nat): Result<Db> {
    if subscription == "" || row.None? then Ok(db)
    else UpdateBillingById(db, row.value, BillingPatch(status := Set("past_due")), now)
  }

  function SetUnlessEmpty(s: string): Field<string> { if s == "" then Keep else Set(s) }

  ghost function UpdateBillingOnSubscriptionUpdated(db: Db, subscription: string, productId: string, status: string,
                                                    currentPeriodEnd: int, row: Option<string>, now: nat): Result<Db> {
    if subscription == "" || row.None? then Ok(db)
    else if row.value !in db.billings then Fail(Internal)
    else
      var billing := db.billings[row.value];
      var written := UpdateBillingById(db, row.value, BillingPatch(productId := SetUnlessEmpty(productId),
                                       status := SetUnlessEmpty(status), expiresAt := Set(currentPeriodEnd)), now);
      if written.Fail? then written
      else if status == "canceled" || status == "unpaid" then DowngradeToFreeTier(written.value, billing.userId, now)
      else if productId != "" && productId != billing.productId then
        UpdateUserById(written.value, billing.userId, UserPatch(currentProductId := Set(Some(productId))), now)
      else written
  }

  ghost function UpdateBillingOnSubscriptionDeleted(db: Db, subscription: string, row: Option<string>,
                                                    now: nat): Result<Db> {
    if subscription == "" || row.None? then Ok(db)
    else if row.value !in db.billings then Fail(Internal)
    else
      var written := UpdateBillingById(db, row.value, BillingPatch(status := Set("canceled"), expiresAt := Set(now)),
                                       now);
      if written.Fail? then written else DowngradeToFreeTier(written.value, db.billings[row.value].userId, now)
  }

  // ------------------------------------------------------------- the webhook

  datatype Event =
    | InvoicePaid(hasLine: bool, subscription: string, priceId: string, periodEnd: int, customerEmail: string,
                  customer: string)
    | InvoicePaymentFailed(subscription: string)
    | SubscriptionUpdated(subscription: string, periodEnd: int, cancelAt: int, priceId: string, status: string)
    | SubscriptionDeleted(subscription: string)
    | Unhandled

  /** One delivery of an event: when it is handled, the key a new row would get, and the row
      that the query by subscription id returns. */
  datatype Delivery = Delivery(event: Event, now: nat, freshId: string, row: Option<string>)

  /** The environment's part of a delivery is one the database can produce. */
  ghost predicate Possible(db: Db, d: Delivery) {
    && (d.event.InvoicePaid? ==> d.freshId !in db.billings)
    && (d.event.InvoicePaymentFailed? || d.event.SubscriptionUpdated? || d.event.SubscriptionDeleted?
        ==> IsBillingFor(db, d.event.subscription, d.row))
  }

  ghost function ProcessBillingWebhook(db: Db, d: Delivery): Result<Db> {
    match d.event
    case InvoicePaid(hasLine, subscription, priceId, periodEnd, customerEmail, customer) =>
      if !hasLine then Ok(db)
      else if subscription == "" || priceId == "" then Fail(Internal)
      else (
        match ProductByPrice(db.products, priceId)
        case None => Ok(db)
        case Some(product) =>
          if periodEnd == 0 then Fail(Internal)
          else RegisterUserBilling(db, Payment(customerEmail, product.id, customer, subscription, periodEnd), d.freshId,
                                   d.now))
    case InvoicePaymentFailed(subscription) =>
      if subscription == "" then Fail(Internal)
      else UpdateBillingOnPaymentFailed(db, subscription, d.row, d.now)
    case SubscriptionUpdated(subscription, periodEnd, cancelAt, priceId, status) =>
      if periodEnd == 0 then Fail(Internal)
      else
        var expiresAt := UnixTimestampToDate(if cancelAt != 0 then cancelAt else periodEnd);
        var product := if priceId == "" then None else ProductByPrice(db.products, priceId);
        UpdateBillingOnSubscriptionUpdated(db, subscription, if product.Some? then product.value.id else "", status,
                                           expiresAt, d.row, d.now)
    case SubscriptionDeleted(subscription) => UpdateBillingOnSubscriptionDeleted(db, subscription, d.row, d.now)
    case Unhandled => Ok(db)
  }

  /** The database after a delivery, whether or not the handler threw. */
  ghost function Delivered(db: Db, d: Delivery): Db {
    match ProcessBillingWebhook(db, d)
    case Ok(after) => after
    case Fail(_) => db
  }

  ghost function DeliverAll(db: Db, ds: seq<Delivery>): Db
    decreases |ds|
  {
    if ds == [] then db else DeliverAll(Delivered(db, ds[0]), ds[1..])
  }

  ghost predicate PossibleRun(db: Db, ds: seq<Delivery>)
    decreases |ds|
  {
    ds != [] ==> Possible(db, ds[0]) && PossibleRun(Delivered(db, ds[0]), ds[1..])
  }
}

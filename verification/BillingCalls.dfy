/** The billing service and the webhook controller as they run: lookups, writes in order, and rollback when one throws
    (back-end/src/services/billing.service.ts, back-end/src/controllers/billing.controller.ts). */
module BillingCalls {
  import opened Common
  import opened Rows
  import opened Database
  import opened Subscriptions
  import opened System
  import opened BillingService

  // ----------------------------------------------------------- billing service

  method DowngradeToFreeTier(db: Database, userId: string, now: nat) returns (r: Result<()>)
    modifies db`users
    ensures db.State() == Committed(BillingService.DowngradeToFreeTier(old(db.State()), userId, now), old(db.State()))
    ensures r == Status(BillingService.DowngradeToFreeTier(old(db.State()), userId, now))
  {
    var free := FreeTier(db.products);
    if free.None? {
      return Fail(Internal);
    }
    r := db.UpdateUserById(userId, UserPatch(currentProductId := Set(Some(free.value.id))), now);
  }

  method RegisterUserBilling(db: Database, input: Payment, freshId: string, now: nat) returns (r: Result<()>)
    requires Keyed(db.State())
    modifies db
    ensures db.State() == Committed(BillingService.RegisterUserBilling(old(db.State()), input, freshId, now),
                                    old(db.State()))
    ensures r == Status(BillingService.RegisterUserBilling(old(db.State()), input, freshId, now))
  {
    var user := db.GetUserByEmail(input.userEmail);
    if user.None? {
      return Fail(Internal);
    }
    var billing := db.GetBillingByUserId(user.value);
    var expiresAt := UnixTimestampToDate(input.expiresAt);
    var savedUsers, savedBillings := db.users, db.billings;
    r := Ok(());
    if billing.None? {
      db.CreateBilling(freshId,
                       Billing(user.value, input.productId, input.externalSubscriptionId, input.externalCustomerId,
                               "active", expiresAt, now));
    } else {
      var updates := BillingPatch(Set(input.productId), Set(input.externalSubscriptionId),
                                  Set(input.externalCustomerId), Set("active"), Set(expiresAt));
      r := db.UpdateBillingById(billing.value, updates, now);
    }
    if r.Ok? {
      r := db.UpdateUserById(user.value, UserPatch(currentProductId := Set(Some(input.productId))), now);
    }
    if r.Fail? {
      db.users, db.billings := savedUsers, savedBillings;
    }
  }

  method UpdateBillingOnPaymentFailed(db: Database, subscription: string, now: nat)
    returns (r: Result<()>, ghost row: Option<string>)
    modifies db
    ensures IsBillingFor(old(db.State()), subscription, row)
    ensures var result := BillingService.UpdateBillingOnPaymentFailed(old(db.State()), subscription, row, now);
            db.State() == Committed(result, old(db.State())) && r == Status(result)
  {
    var billing := db.GetBillingByExternalSubscriptionId(subscription);
    row, r := billing, Ok(());
    if subscription == "" || billing.None? {
      return;
    }
    r := db.UpdateBillingById(billing.value, BillingPatch(status := Set("past_due")), now);
  }

  method UpdateBillingOnSubscriptionUpdated(db: Database, subscription: string, productId: string, status: string,
                                            currentPeriodEnd: int, now: nat)
    returns (r: Result<()>, ghost row: Option<string>)
    modifies db
    ensures IsBillingFor(old(db.State()), subscription, row)
    ensures var result := BillingService.UpdateBillingOnSubscriptionUpdated(old(db.State()), subscription, productId,
                            status, currentPeriodEnd, row, now);
            db.State() == Committed(result, old(db.State())) && r == Status(result)
  {
    var found := db.GetBillingByExternalSubscriptionId(subscription);
    row, r := found, Ok(());
    if subscription == "" || found.None? {
      return;
    }
    var billing := db.billings[found.value];
    var savedUsers, savedBillings := db.users, db.billings;
    var updates := BillingPatch(productId := SetUnlessEmpty(productId), status := SetUnlessEmpty(status),
                                expiresAt := Set(currentPeriodEnd));
    r := db.UpdateBillingById(found.value, updates, now);
    if r.Ok? {
      if status == "canceled" || status == "unpaid" {
        r := DowngradeToFreeTier(db, billing.userId, now);
      } else if productId != "" && productId != billing.productId {
        r := db.UpdateUserById(billing.userId, UserPatch(currentProductId := Set(Some(productId))), now);
      }
    }
    if r.Fail? {
      db.users, db.billings := savedUsers, savedBillings;
    }
  }

  method UpdateBillingOnSubscriptionDeleted(db: Database, subscription: string, now: nat)
    returns (r: Result<()>, ghost row: Option<string>)
    modifies db
    ensures IsBillingFor(old(db.State()), subscription, row)
    ensures var result := BillingService.UpdateBillingOnSubscriptionDeleted(old(db.State()), subscription, row, now);
            db.State() == Committed(result, old(db.State())) && r == Status(result)
  {
    var found := db.GetBillingByExternalSubscriptionId(subscription);
    row, r := found, Ok(());
    if subscription == "" || found.None? {
      return;
    }
    var userId := db.billings[found.value].userId;
    var savedUsers, savedBillings := db.users, db.billings;
    r := db.UpdateBillingById(found.value, BillingPatch(status := Set("canceled"), expiresAt := Set(now)), now);
    if r.Ok? {
      r := DowngradeToFreeTier(db, userId, now);
    }
    if r.Fail? {
      db.users, db.billings := savedUsers, savedBillings;
    }
  }

  // ----------------------------------------------------------- webhook controller

  /** The switch over the event's type. */
  method HandleEvent(db: Database, event: Event, freshId: string, now: nat) returns (r: Result<()>, ghost d: Delivery)
    requires Keyed(db.State()) && freshId !in db.billings
    modifies db
    ensures d.event == event && d.now == now && d.freshId == freshId && Possible(old(db.State()), d)
    ensures db.State() == Delivered(old(db.State()), d)
    ensures r == Status(BillingService.ProcessBillingWebhook(old(db.State()), d))
  {
    hide Keyed;
    ghost var row: Option<string> := None;
    r := Ok(());
    match event {
      case InvoicePaid(hasLine, subscription, priceId, periodEnd, customerEmail, customer) =>
        if hasLine {
          if subscription == "" || priceId == "" {
            r := Fail(Internal);
          } else {
            var product := ProductByPrice(db.products, priceId);
            if product.Some? {
              if periodEnd == 0 {
                r := Fail(Internal);
              } else {
                var input := Payment(customerEmail, product.value.id, customer, subscription, periodEnd);
                r := RegisterUserBilling(db, input, freshId, now);
              }
            }
          }
        }
      case InvoicePaymentFailed(subscription) =>
        if subscription == "" {
          r, row := Fail(Internal), SomeBillingFor(db.State(), subscription);
        } else {
          r, row := UpdateBillingOnPaymentFailed(db, subscription, now);
        }
      case SubscriptionUpdated(subscription, periodEnd, cancelAt, priceId, status) =>
        if periodEnd == 0 {
          r, row := Fail(Internal), SomeBillingFor(db.State(), subscription);
        } else {
          var expiresAt := UnixTimestampToDate(if cancelAt != 0 then cancelAt else periodEnd);
          var product := if priceId == "" then None else ProductByPrice(db.products, priceId);
          var productId := if product.Some? then product.value.id else "";
          r, row := UpdateBillingOnSubscriptionUpdated(db, subscription, productId, status, expiresAt, now);
        }
      case SubscriptionDeleted(subscription) =>
        r, row := UpdateBillingOnSubscriptionDeleted(db, subscription, now);
      case Unhandled =>
    }
    d := Delivery(event, now, freshId, row);
  }

  method ProcessBillingWebhook(db: Database, event: Event, freshId: string, now: nat)
    returns (r: Result<()>, ghost d: Delivery)
    requires Inv(db.State()) && freshId !in db.billings
    modifies db
    ensures d.event == event && d.now == now && d.freshId == freshId && Possible(old(db.State()), d)
    ensures db.State() == Delivered(old(db.State()), d)
    ensures r == Status(BillingService.ProcessBillingWebhook(old(db.State()), d))
    ensures Inv(db.State())
    ensures old(RevokedOnFree(db.State())) && HasStatus(event) ==> RevokedOnFree(db.State())
  {
    r, d := HandleEvent(db, event, freshId, now);
    hide *;
    WebhookKeepsInv(old(db.State()), d);
  }
}

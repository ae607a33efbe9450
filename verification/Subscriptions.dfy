/** What every run of webhook deliveries keeps. */
module Subscriptions {
  import opened Common
  import opened Rows
  import opened BillingService
  import opened WebhookEffects

  ghost predicate OnFreeTier(db: Db, userId: string) {
    && userId in db.users
    && FreeTier(db.products).Some?
    && db.users[userId].currentProductId == Some(FreeTier(db.products).value.id)
  }

  ghost predicate OwnsCurrentProduct(db: Db, userId: string) {
    && userId in db.users
    && exists row :: row in db.billings && db.billings[row].userId == userId
                     && db.users[userId].currentProductId == Some(db.billings[row].productId)
  }

  /** Every user is on the free tier or on the product of a billing row of their own. */
  ghost predicate Entitled(db: Db) {
    forall u :: u in db.users ==> OnFreeTier(db, u) || OwnsCurrentProduct(db, u)
  }

  /** A row that was canceled or left unpaid belongs to a user on the free tier. */
  ghost predicate RevokedOnFree(db: Db) {
    forall row :: row in db.billings ==>
      (db.billings[row].status == "canceled" || db.billings[row].status == "unpaid" ==>
         OnFreeTier(db, db.billings[row].userId))
  }

  /** The events that the payment provider sends: a subscription always has a status. */
  predicate HasStatus(e: Event) { e.SubscriptionUpdated? ==> e.status != "" }

  /** One write concerns one user: the row is theirs before and after, or it is their first. */
  ghost predicate OneUsersWrite(db: Db, e: Effect) {
    e.Write? ==>
      && e.row.userId in db.users
      && (e.rowId in db.billings ==> db.billings[e.rowId].userId == e.row.userId)
      && (e.rowId !in db.billings ==> forall i :: i in db.billings ==> db.billings[i].userId != e.row.userId)
  }

  /** A write keeps the row's product, moves the user to the row's product or moves the user to the free tier. */
  ghost predicate ProductFollows(db: Db, e: Effect) {
    e.Write? ==>
      && (e.product.None? ==> e.rowId in db.billings && e.row.productId == db.billings[e.rowId].productId)
      && (e.product.Some? ==> e.product.value == e.row.productId || ToFreeTier(db, e))
  }

  ghost predicate ToFreeTier(db: Db, e: Effect) {
    e.Write? && FreeTier(db.products).Some? && e.product == Some(FreeTier(db.products).value.id)
  }

  lemma EffectShape(db: Db, d: Delivery)
    requires Keyed(db) && Possible(db, d)
    ensures OneUsersWrite(db, EffectOf(db, d))
    ensures ProductFollows(db, EffectOf(db, d))
    ensures EffectOf(db, d).Write? && Revokes(EffectOf(db, d).row.status) && HasStatus(d.event) ==>
              ToFreeTier(db, EffectOf(db, d))
  {
    hide UniqueUsers, FreeTier, ProductByPrice;
  }

  lemma WriteKeepsKeyed(db: Db, e: Effect, now: nat)
    requires Keyed(db) && OneUsersWrite(db, e)
    ensures Keyed(ApplyEffect(db, e, now))
  {
    WriteKeepsUsers(db, e, now);
    WriteKeepsRowsOwned(db, e, now);
    hide ApplyEffect, UniqueUsers, RowsOwned;
  }

  lemma WriteKeepsUsers(db: Db, e: Effect, now: nat)
    requires UniqueUsers(db)
    ensures UniqueUsers(ApplyEffect(db, e, now))
  {
  }

  lemma WriteKeepsRowsOwned(db: Db, e: Effect, now: nat)
    requires RowsOwned(db) && OneUsersWrite(db, e)
    ensures RowsOwned(ApplyEffect(db, e, now))
  {
  }

  lemma WriteKeepsEntitled(db: Db, e: Effect, now: nat)
    requires RowsOwned(db) && Entitled(db) && OneUsersWrite(db, e) && ProductFollows(db, e)
    ensures Entitled(ApplyEffect(db, e, now))
  {
    var db' := ApplyEffect(db, e, now);
    forall u | u in db'.users ensures OnFreeTier(db', u) || OwnsCurrentProduct(db', u) {
      assert OnFreeTier(db, u) || OwnsCurrentProduct(db, u);
      if e.Write? && e.row.userId == u {
        assert e.rowId in db'.billings && db'.billings[e.rowId] == e.row;
      } else if OwnsCurrentProduct(db, u) {
        var row :| row in db.billings && db.billings[row].userId == u
                   && db.users[u].currentProductId == Some(db.billings[row].productId);
        assert row in db'.billings && db'.billings[row] == db.billings[row];
      }
    }
  }

  lemma DeliveredKeepsKeyed(db: Db, d: Delivery)
    requires Keyed(db) && Possible(db, d)
    ensures Keyed(Delivered(db, d))
  {
    WebhookIsOneWrite(db, d);
    EffectShape(db, d);
    hide *;
    WriteKeepsKeyed(db, EffectOf(db, d), d.now);
  }

  lemma DeliveredKeepsEntitled(db: Db, d: Delivery)
    requires Keyed(db) && Entitled(db) && Possible(db, d)
    ensures Entitled(Delivered(db, d))
  {
    WebhookIsOneWrite(db, d);
    EffectShape(db, d);
    assert RowsOwned(db);
    hide *;
    WriteKeepsEntitled(db, EffectOf(db, d), d.now);
  }

  lemma WriteKeepsRevokedOnFree(db: Db, e: Effect, now: nat)
    requires RowsOwned(db) && RevokedOnFree(db) && OneUsersWrite(db, e)
    requires e.Write? && Revokes(e.row.status) ==> ToFreeTier(db, e)
    ensures RevokedOnFree(ApplyEffect(db, e, now))
  {
  }

  lemma DeliveredKeepsRevokedOnFree(db: Db, d: Delivery)
    requires Keyed(db) && RevokedOnFree(db) && Possible(db, d) && HasStatus(d.event)
    ensures RevokedOnFree(Delivered(db, d))
  {
    WebhookIsOneWrite(db, d);
    EffectShape(db, d);
    assert RowsOwned(db);
    hide *;
    WriteKeepsRevokedOnFree(db, EffectOf(db, d), d.now);
  }

  lemma RevokedAfterWrite(db: Db, e: Effect, now: nat)
    requires RowsOwned(db) && RevokedOnFree(db) && e.Write? && OneUsersWrite(db, e)
    ensures RevokedOnFree(ApplyEffect(db, e, now)) <==>
              !Revokes(e.row.status) || OnFreeTier(ApplyEffect(db, e, now), e.row.userId)
  {
    var db' := ApplyEffect(db, e, now);
    assert e.rowId in db'.billings && db'.billings[e.rowId] == e.row;
  }

  /** Without the provider's promise of a status, the update itself may break the rule: exactly when it names no
      status and moves a revoked row, and with it the user, to another product than the free tier's. */
  lemma UpdateKeepsRevokedOnFreeExactly(db: Db, subscription: string, productId: string, status: string,
                                        expiresAt: int, row: string, now: nat)
    requires Keyed(db) && RevokedOnFree(db) && subscription != "" && row in db.billings
    ensures var r := UpdateBillingOnSubscriptionUpdated(db, subscription, productId, status, expiresAt, Some(row), now);
            (r.Ok? ==> RevokedOnFree(r.value)) <==>
            !(status == "" && Revokes(db.billings[row].status) && productId != ""
              && productId != db.billings[row].productId
              && FreeTier(db.products) != None && productId != FreeTier(db.products).value.id)
  {
    UpdateIsOneWrite(db, subscription, productId, status, expiresAt, row, now);
    var r := UpdateBillingOnSubscriptionUpdated(db, subscription, productId, status, expiresAt, Some(row), now);
    var e := UpdateEffect(db, row, productId, status, expiresAt, now);
    assert r.Ok? ==> r.value == ApplyEffect(db, e, now);
    assert r.Fail? ==> Revokes(status);
    assert e.Write? ==>
             && e.rowId == row
             && (Revokes(e.row.status) <==> Revokes(status) || (status == "" && Revokes(db.billings[row].status)));
    assert OneUsersWrite(db, e);
    hide UpdateBillingOnSubscriptionUpdated;
    if e.Write? {
      RevokedAfterWrite(db, e, now);
    }
  }

  /** The entitlement and revocation rules hold after every run. */
  lemma {:induction false} RunKeepsRules(db: Db, ds: seq<Delivery>)
    requires Keyed(db) && Entitled(db) && PossibleRun(db, ds)
    ensures Keyed(DeliverAll(db, ds)) && Entitled(DeliverAll(db, ds))
    ensures RevokedOnFree(db) && (forall d :: d in ds ==> HasStatus(d.event)) ==> RevokedOnFree(DeliverAll(db, ds))
    decreases |ds|
  {
    if ds == [] {
    } else {
      DeliveredKeepsKeyed(db, ds[0]);
      DeliveredKeepsEntitled(db, ds[0]);
      if RevokedOnFree(db) && HasStatus(ds[0].event) {
        DeliveredKeepsRevokedOnFree(db, ds[0]);
      }
      hide Delivered, Possible, Keyed, Entitled, RevokedOnFree;
      RunKeepsRules(Delivered(db, ds[0]), ds[1..]);
    }
  }

  // ------------------------------------------------------------- projection

  ghost predicate IsSubscriptionEvent(e: Event) { !e.Unhandled? }

  /** Each subscription id belongs to one email: `owner` says which. Invoices that the handler rejects do not matter. */
  ghost predicate Billed(products: seq<Product>, owner: string -> string, e: Event) {
    Complete(products, e) ==> owner(e.subscription) == e.customerEmail
  }

  /** The rows of `u` are those whose subscription belongs to the email of `u`. */
  ghost predicate OwnRows(db: Db, owner: string -> string, u: string) {
    u in db.users && forall i :: i in db.billings ==>
      (db.billings[i].userId == u <==> owner(db.billings[i].externalSubscriptionId) == db.users[u].email)
  }

  ghost predicate IsOwn(owner: string -> string, email: string, e: Event) {
    IsSubscriptionEvent(e) && owner(e.subscription) == email
  }

  ghost function OwnEvents(owner: string -> string, email: string, ds: seq<Delivery>): seq<Delivery> {
    if ds == [] then []
    else (if IsOwn(owner, email, ds[0].event) then [ds[0]] else []) + OwnEvents(owner, email, ds[1..])
  }

  /** The two databases show user `u` the same: their row, their billing rows and the products. */
  ghost predicate SameFor(u: string, a: Db, b: Db) {
    && a.products == b.products
    && u in a.users && u in b.users && a.users[u] == b.users[u]
    && (forall i :: i in a.billings && a.billings[i].userId == u ==> i in b.billings && b.billings[i] == a.billings[i])
    && (forall i :: i in b.billings && b.billings[i].userId == u ==> i in a.billings && a.billings[i] == b.billings[i])
  }

  lemma SameForSym(u: string, a: Db, a': Db, b: Db)
    requires SameFor(u, a, b) && SameFor(u, a, a')
    ensures SameFor(u, a', b)
  {
  }

  /** A write is for `u` exactly when the subscription, and so the event, belongs to the email of `u`. */
  lemma EffectBilled(db: Db, d: Delivery, owner: string -> string, u: string)
    requires Keyed(db) && OwnRows(db, owner, u) && Possible(db, d) && Billed(db.products, owner, d.event)
    ensures OneUsersWrite(db, EffectOf(db, d))
    ensures var e := EffectOf(db, d);
            e.Write? ==>
              && (e.row.userId == u <==> owner(e.row.externalSubscriptionId) == db.users[u].email)
              && (e.row.userId == u <==> IsOwn(owner, db.users[u].email, d.event))
  {
    EffectShape(db, d);
  }

  lemma WriteKeepsOwnRows(db: Db, e: Effect, now: nat, owner: string -> string, u: string)
    requires OwnRows(db, owner, u) && OneUsersWrite(db, e)
    requires e.Write? ==> (e.row.userId == u <==> owner(e.row.externalSubscriptionId) == db.users[u].email)
    ensures OwnRows(ApplyEffect(db, e, now), owner, u)
    ensures ApplyEffect(db, e, now).users[u].email == db.users[u].email
    ensures ApplyEffect(db, e, now).products == db.products
  {
  }

  lemma DeliveredKeepsOwnRows(db: Db, d: Delivery, owner: string -> string, u: string)
    requires Keyed(db) && OwnRows(db, owner, u) && Possible(db, d) && Billed(db.products, owner, d.event)
    ensures OwnRows(Delivered(db, d), owner, u)
    ensures Delivered(db, d).users[u].email == db.users[u].email
    ensures Delivered(db, d).products == db.products
  {
    WebhookIsOneWrite(db, d);
    EffectBilled(db, d, owner, u);
    hide *;
    WriteKeepsOwnRows(db, EffectOf(db, d), d.now, owner, u);
  }

  lemma WriteElsewhere(db: Db, e: Effect, now: nat, u: string)
    requires OneUsersWrite(db, e) && u in db.users && (e.Write? ==> e.row.userId != u)
    ensures SameFor(u, db, ApplyEffect(db, e, now))
    ensures db.billings.Keys <= ApplyEffect(db, e, now).billings.Keys
  {
  }

  /** An event for somebody else's subscription shows a user nothing. */
  lemma ForeignEvent(db: Db, d: Delivery, owner: string -> string, u: string)
    requires Keyed(db) && OwnRows(db, owner, u) && Possible(db, d) && Billed(db.products, owner, d.event)
    requires !IsOwn(owner, db.users[u].email, d.event)
    ensures SameFor(u, db, Delivered(db, d))
    ensures db.billings.Keys <= Delivered(db, d).billings.Keys
  {
    WebhookIsOneWrite(db, d);
    EffectBilled(db, d, owner, u);
    hide *;
    WriteElsewhere(db, EffectOf(db, d), d.now, u);
  }

  lemma SameLookups(a: Db, b: Db, u: string)
    requires Keyed(a) && Keyed(b) && SameFor(u, a, b)
    ensures UserBy(a, HasEmail(a.users[u].email)) == UserBy(b, HasEmail(a.users[u].email)) == Some(u)
    ensures BillingOf(a, u) == BillingOf(b, u)
  {
    assert HasEmail(a.users[u].email)(a.users[u]) && HasEmail(a.users[u].email)(b.users[u]);
  }

  /** A user's own event has the same effect wherever the user looks the same. */
  lemma OwnEvent(a: Db, b: Db, d: Delivery, owner: string -> string, u: string)
    requires Keyed(a) && Keyed(b) && OwnRows(a, owner, u) && OwnRows(b, owner, u) && SameFor(u, a, b)
    requires b.billings.Keys <= a.billings.Keys
    requires Possible(a, d) && Billed(a.products, owner, d.event) && IsOwn(owner, a.users[u].email, d.event)
    ensures Possible(b, d)
    ensures EffectOf(a, d) == EffectOf(b, d)
    ensures EffectOf(a, d).Write? ==> EffectOf(a, d).row.userId == u
  {
    if d.event.InvoicePaid? {
      SameLookups(a, b, u);
      hide Keyed, OwnRows, SameFor;
    } else {
      hide Keyed;
      OwnRowEvent(a, b, d, u);
    }
  }

  lemma OwnRowEvent(a: Db, b: Db, d: Delivery, u: string)
    requires SameFor(u, a, b) && b.billings.Keys <= a.billings.Keys
    requires Possible(a, d) && IsSubscriptionEvent(d.event) && !d.event.InvoicePaid?
    requires forall i :: i in a.billings && a.billings[i].externalSubscriptionId == d.event.subscription ==>
              a.billings[i].userId == u
    requires forall i :: i in b.billings && b.billings[i].externalSubscriptionId == d.event.subscription ==>
              b.billings[i].userId == u
    ensures Possible(b, d)
    ensures EffectOf(a, d) == EffectOf(b, d)
    ensures EffectOf(a, d).Write? ==> EffectOf(a, d).row.userId == u
  {
  }

  lemma WriteTracks(a: Db, b: Db, e: Effect, now: nat, u: string)
    requires SameFor(u, a, b) && b.billings.Keys <= a.billings.Keys
    requires OneUsersWrite(a, e) && (e.Write? ==> e.row.userId == u)
    ensures SameFor(u, ApplyEffect(a, e, now), ApplyEffect(b, e, now))
    ensures ApplyEffect(b, e, now).billings.Keys <= ApplyEffect(a, e, now).billings.Keys
  {
  }

  lemma OwnEventTracks(a: Db, b: Db, d: Delivery, owner: string -> string, u: string)
    requires Keyed(a) && Keyed(b) && OwnRows(a, owner, u) && OwnRows(b, owner, u) && SameFor(u, a, b)
    requires b.billings.Keys <= a.billings.Keys
    requires Possible(a, d) && Billed(a.products, owner, d.event) && IsOwn(owner, a.users[u].email, d.event)
    ensures Possible(b, d)
    ensures SameFor(u, Delivered(a, d), Delivered(b, d))
    ensures Delivered(b, d).billings.Keys <= Delivered(a, d).billings.Keys
  {
    OwnEvent(a, b, d, owner, u);
    WebhookIsOneWrite(a, d);
    WebhookIsOneWrite(b, d);
    EffectShape(a, d);
    hide *;
    WriteTracks(a, b, EffectOf(a, d), d.now, u);
  }

  lemma {:induction false} ProjectionFrom(a: Db, b: Db, ds: seq<Delivery>, owner: string -> string, u: string)
    requires Keyed(a) && Keyed(b) && OwnRows(a, owner, u) && OwnRows(b, owner, u) && SameFor(u, a, b)
    requires b.billings.Keys <= a.billings.Keys
    requires PossibleRun(a, ds) && forall d :: d in ds ==> Billed(a.products, owner, d.event)
    ensures var own := OwnEvents(owner, a.users[u].email, ds);
            PossibleRun(b, own) && SameFor(u, DeliverAll(a, ds), DeliverAll(b, own))
    decreases |ds|
  {
    if ds == [] {
    } else {
      var d := ds[0];
      var email, rest := a.users[u].email, OwnEvents(owner, a.users[u].email, ds[1..]);
      DeliveredKeepsKeyed(a, d);
      DeliveredKeepsOwnRows(a, d, owner, u);
      hide Delivered, Possible, Keyed, OwnRows;
      if IsOwn(owner, email, d.event) {
        OwnEventTracks(a, b, d, owner, u);
        DeliveredKeepsKeyed(b, d);
        DeliveredKeepsOwnRows(b, d, owner, u);
        ProjectionFrom(Delivered(a, d), Delivered(b, d), ds[1..], owner, u);
        assert ([d] + rest)[1..] == rest;
      } else {
        ForeignEvent(a, d, owner, u);
        SameForSym(u, a, Delivered(a, d), b);
        ProjectionFrom(Delivered(a, d), b, ds[1..], owner, u);
        assert [] + rest == rest;
      }
    }
  }

  /** Other users' events are invisible: in a run in which each subscription id is billed to one email, a user ends with
      the same product and the same billing row, keys and times included, as when only the user's own events arrive. */
  lemma {:induction false} Projection(db: Db, ds: seq<Delivery>, owner: string -> string, u: string)
    requires Keyed(db) && OwnRows(db, owner, u)
    requires PossibleRun(db, ds) && forall d :: d in ds ==> Billed(db.products, owner, d.event)
    ensures PossibleRun(db, OwnEvents(owner, db.users[u].email, ds))
    ensures SameFor(u, DeliverAll(db, ds), DeliverAll(db, OwnEvents(owner, db.users[u].email, ds)))
  {
    ProjectionFrom(db, db, ds, owner, u);
  }
}

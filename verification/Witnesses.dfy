/** Runs, from empty tables on, in which something goes otherwise than one may expect. The exact conditions are in the
    modules that the lemmas name. */
module Witnesses {
  import opened Common
  import opened Tokens
  import opened Rows
  import opened BillingService
  import opened WebhookEffects
  import opened Subscriptions
  import opened SubscriptionRuns
  import opened Payments
  import opened AuthService
  import opened EmailService
  import opened System
  import opened TokenTheorems
  import opened CallOutcomes

  const PRODUCTS: seq<Product> := [
    Product("free", 0, None, true), Product("pro", 1000, Some("price-pro"), false),
    Product("max", 5000, Some("price-max"), false)
  ]

  const EMPTY := Db(map[], map[], PRODUCTS)

  // ------------------------------------------------------------- the calls

  function At(action: Action, now: nat, freshId: string): Call { Call(action, now, freshId, true, true) }

  function SignsUp(id: string, email: string, now: nat): Call {
    At(Signup(SignupInput("Name", email, "1", 30), "hash"), now, id)
  }

  function Pays(email: string, freshId: string, now: nat): Call {
    At(Webhook(InvoicePaid(true, "sub", "price-pro", 5000, email, "customer"), None), now, freshId)
  }

  function Updates(priceId: string, status: string, now: nat): Call {
    At(Webhook(SubscriptionUpdated("sub", 5000, 0, priceId, status), Some("row")), now, "none")
  }

  // ------------------------------------------------------------- the states

  function VerificationLink(id: string,
                            now: nat): Token { Sign(id, EmailVerification, Seconds(now), VERIFICATION_SECONDS) }

  function NewUserRow(id: string, email: string, now: nat): User {
    User(email, "Name", "1", 30, "hash", None, None, false, Some(VerificationLink(id, now)), Some("free"), now)
  }

  function Row(id: string, status: string, now: nat): Billing {
    Billing(id, "pro", "sub", "customer", status, 5000000, now)
  }

  const SIGNED_UP := Db(map["ann" := NewUserRow("ann", "ann@old.org", 1000)], map[], PRODUCTS)

  const ANN_PAID := NewUserRow("ann", "ann@old.org", 1000).(currentProductId := Some("pro"), updatedAt := 2000)

  const PAID := Db(map["ann" := ANN_PAID], map["row" := Row("ann", "active", 2000)], PRODUCTS)

  const UNPAID := Db(map["ann" := ANN_PAID.(currentProductId := Some("free"), updatedAt := 3000)],
                     map["row" := Row("ann", "unpaid", 3000)], PRODUCTS)

  const REACTIVATED := UNPAID.(billings := map["row" := Row("ann", "active", 4000)])

  lemma ProductsFound()
    ensures FreeTier(PRODUCTS) == Some(PRODUCTS[0])
    ensures ProductByPrice(PRODUCTS, "price-pro") == Some(PRODUCTS[1])
    ensures ProductByPrice(PRODUCTS, "price-max") == Some(PRODUCTS[2])
  {
    assert PRODUCTS[1..][0] == PRODUCTS[1] && PRODUCTS[1..][1..][0] == PRODUCTS[2];
  }

  lemma KeepsInv(db: Db, c: Call)
    requires Inv(db) && Allowed(db, c)
    ensures Inv(Step(db, c))
  {
    hide *;
    StepKeepsInv(db, c);
  }

  lemma SignUpStep(db: Db, id: string, email: string, now: nat)
    requires Inv(db) && db.products == PRODUCTS && id !in db.users
    requires forall u :: u in db.users ==> db.users[u].email != email
    ensures Allowed(db, SignsUp(id, email, now)) && Inv(Step(db, SignsUp(id, email, now)))
    ensures Step(db, SignsUp(id, email, now)) == PutUser(db, id, NewUserRow(id, email, now))
  {
    var c := SignsUp(id, email, now);
    hide Inv, Possible, RegisterUser;
    assert Allowed(db, c) && Step(db, c) == RegisterUser(db, c.action.input, "hash", id, now).db;
    hide *;
    KeepsInv(db, c);
    SignUpWrites(db, id, email, now);
  }

  lemma SignUpWrites(db: Db, id: string, email: string, now: nat)
    requires Inv(db) && db.products == PRODUCTS && id !in db.users
    requires forall u :: u in db.users ==> db.users[u].email != email
    ensures RegisterUser(db, SignupInput("Name", email, "1", 30), "hash", id, now).db
         == PutUser(db, id, NewUserRow(id, email, now))
  {
    var db' := RegisterUser(db, SignupInput("Name", email, "1", 30), "hash", id, now).db;
    ProductsFound();
    SignupExactly(db, SignupInput("Name", email, "1", 30), "hash", id, now);
    hide Inv, RegisterUser, OnlyRow, PRODUCTS, FreeTier;
    OnlyRowIsPut(db, db', id);
  }

  lemma PayStep(db: Db, id: string, freshId: string, email: string, now: nat)
    requires Inv(db) && db.products == PRODUCTS && freshId !in db.users && freshId !in db.billings
    requires id in db.users && db.users[id].email == email
    requires BillingOf(db, id) == None
    ensures Allowed(db, Pays(email, freshId, now)) && Inv(Step(db, Pays(email, freshId, now)))
    ensures Step(db, Pays(email, freshId, now))
         == PutBilling(PutUser(db, id, db.users[id].(currentProductId := Some("pro"), updatedAt := now)), freshId,
                       Row(id, "active", now))
  {
    var c := Pays(email, freshId, now);
    PayAllowed(db, email, freshId, now);
    assert DeliveryOf(c).event == InvoicePaid(true, "sub", "price-pro", 5000, db.users[id].email, "customer");
    hide *;
    KeepsInv(db, c);
    WebhookCall(db, c);
    PaidOnce(db, DeliveryOf(c), id);
  }

  lemma PayAllowed(db: Db, email: string, freshId: string, now: nat)
    requires freshId !in db.users && freshId !in db.billings
    ensures Allowed(db, Pays(email, freshId, now))
    ensures DeliveryOf(Pays(email, freshId, now)).freshId == freshId && DeliveryOf(Pays(email, freshId, now)).now == now
  {
    hide IsBillingFor;
  }

  lemma PaidOnce(db: Db, d: Delivery, id: string)
    requires Keyed(db) && Possible(db, d) && db.products == PRODUCTS && id in db.users && BillingOf(db, id) == None
    requires d.event == InvoicePaid(true, "sub", "price-pro", 5000, db.users[id].email, "customer")
    ensures Delivered(db, d)
         == PutBilling(PutUser(db, id, db.users[id].(currentProductId := Some("pro"), updatedAt := d.now)), d.freshId,
                       Row(id, "active", d.now))
  {
    ProductsFound();
    WebhookIsOneWrite(db, d);
    assert UserBy(db, HasEmail(db.users[id].email)) == Some(id) by {
      assert HasEmail(db.users[id].email)(db.users[id]);
    }
    hide Keyed, Delivered, Possible;
  }

  lemma UpdateStep(db: Db, row: Billing, priceId: string, status: string, now: nat)
    requires Inv(db) && db.products == PRODUCTS && "none" !in db.users
    requires "row" in db.billings && db.billings["row"] == row && row.externalSubscriptionId == "sub"
    ensures Allowed(db, Updates(priceId, status, now)) && Inv(Step(db, Updates(priceId, status, now)))
    ensures Step(db, Updates(priceId, status, now))
         == ApplyEffect(db, UpdateEffect(db, "row", ProductOfPrice(db, priceId), status, 5000000, now), now)
  {
    var c := Updates(priceId, status, now);
    UpdateAllowed(db, priceId, status, now);
    assert DeliveryOf(c) == Delivery(SubscriptionUpdated("sub", 5000, 0, priceId, status), now, "none", Some("row"));
    hide *;
    WebhookCall(db, c);
    UpdateWrites(db, DeliveryOf(c), priceId, status);
    KeepsInv(db, c);
  }

  lemma UpdateAllowed(db: Db, priceId: string, status: string, now: nat)
    requires "none" !in db.users && "row" in db.billings && db.billings["row"].externalSubscriptionId == "sub"
    ensures Allowed(db, Updates(priceId, status, now))
  {
  }

  lemma UpdateWrites(db: Db, d: Delivery, priceId: string, status: string)
    requires Keyed(db) && Possible(db, d) && d.row == Some("row") && "row" in db.billings
    requires d.event == SubscriptionUpdated("sub", 5000, 0, priceId, status)
    ensures Delivered(db, d)
         == ApplyEffect(db, UpdateEffect(db, "row", ProductOfPrice(db, priceId), status, 5000000, d.now), d.now)
  {
    hide Keyed, Delivered, Possible, UpdateEffect, ApplyEffect, PaidEffect, ProductOfPrice;
    WebhookIsOneWrite(db, d);
  }

  lemma EmptyRules()
    ensures Inv(EMPTY) && RevokedOnFree(EMPTY)
  {
    InitialRules(EMPTY);
  }

  lemma SignedUp()
    ensures var c := SignsUp("ann", "ann@old.org", 1000);
            Allowed(EMPTY, c) && Step(EMPTY, c) == SIGNED_UP && Inv(SIGNED_UP)
  {
    EmptyRules();
    hide Inv, Step, Allowed;
    SignUpStep(EMPTY, "ann", "ann@old.org", 1000);
  }

  /** A user signs up and pays. */
  lemma SignedUpAndPaid()
    ensures var c0, c1 := SignsUp("ann", "ann@old.org", 1000), Pays("ann@old.org", "row", 2000);
            && Allowed(EMPTY, c0) && Step(EMPTY, c0) == SIGNED_UP && Inv(SIGNED_UP)
            && Allowed(SIGNED_UP, c1) && Step(SIGNED_UP, c1) == PAID && Inv(PAID)
  {
    SignedUp();
    hide Inv, Step, Allowed;
    PayStep(SIGNED_UP, "ann", "row", "ann@old.org", 2000);
  }

  /** The calls up to the payment, and any others after them. */
  lemma AfterPayment(rest: seq<Call>)
    requires AllowedRun(PAID, 2000, rest)
    ensures var calls := [SignsUp("ann", "ann@old.org", 1000), Pays("ann@old.org", "row", 2000)] + rest;
            AllowedRun(EMPTY, 0, calls) && Run(EMPTY, calls) == Run(PAID, rest)
  {
    var c0, c1 := SignsUp("ann", "ann@old.org", 1000), Pays("ann@old.org", "row", 2000);
    SignedUpAndPaid();
    hide *;
    First(SIGNED_UP, 1000, c1, rest);
    First(EMPTY, 0, c0, [c1] + rest);
    assert [c0, c1] + rest == [c0] + ([c1] + rest);
  }

  lemma TwoCalls(db: Db, now: nat, c: Call, c': Call)
    requires now <= c.now <= c'.now && Allowed(db, c) && Allowed(Step(db, c), c')
    ensures AllowedRun(db, now, [c, c']) && Run(db, [c, c']) == Step(Step(db, c), c')
  {
    First(Step(db, c), c.now, c', []);
    assert Run(Step(Step(db, c), c'), []) == Step(Step(db, c), c') && AllowedRun(Step(Step(db, c), c'), c'.now, []);
    hide Step, Allowed;
    assert [c'] + [] == [c'];
    First(db, now, c, [c']);
    assert [c] + [c'] == [c, c'];
  }

  // ------------------------------------------------------------- user and row (see PaidProducts)

  lemma LeftUnpaid()
    ensures var c := Updates("price-pro", "unpaid", 3000);
            Allowed(PAID, c) && Step(PAID, c) == UNPAID && Inv(UNPAID)
  {
    SignedUpAndPaid();
    hide Inv, Step, Allowed;
    UpdateStep(PAID, Row("ann", "active", 2000), "price-pro", "unpaid", 3000);
    ProductsFound();
  }

  lemma Reactivated()
    ensures var c := Updates("price-pro", "active", 4000);
            Allowed(UNPAID, c) && Step(UNPAID, c) == REACTIVATED
  {
    LeftUnpaid();
    hide Inv, Step, Allowed;
    UpdateStep(UNPAID, Row("ann", "unpaid", 3000), "price-pro", "active", 4000);
    ProductsFound();
  }

  const MOVED_UP := Db(map["ann" := ANN_PAID.(currentProductId := Some("max"), updatedAt := 4000)],
                       map["row" := Row("ann", "unpaid", 4000).(productId := "max")], PRODUCTS)

  lemma MovedUp()
    ensures var c := Updates("price-max", "", 4000);
            Allowed(UNPAID, c) && Step(UNPAID, c) == MOVED_UP
  {
    LeftUnpaid();
    hide Inv, Step, Allowed;
    UpdateStep(UNPAID, Row("ann", "unpaid", 3000), "price-max", "", 4000);
    ProductsFound();
  }

  /** A subscription that was left unpaid and is active again: the row is active, unexpired and on the paid product, and
      its user is on the free tier. */
  lemma ReactivationLeavesFreeTier()
    ensures var calls := [SignsUp("ann", "ann@old.org", 1000), Pays("ann@old.org", "row", 2000)]
                         + [Updates("price-pro", "unpaid", 3000), Updates("price-pro", "active", 4000)];
            var db := Run(EMPTY, calls);
            && AllowedRun(EMPTY, 0, calls)
            && "row" in db.billings && db.billings["row"].status == "active" && db.billings["row"].expiresAt > 4000
            && db.billings["row"].userId == "ann" && db.billings["row"].productId == "pro"
            && OnFreeTier(db, "ann") && !OwnsCurrentProduct(db, "ann")
  {
    var c2, c3 := Updates("price-pro", "unpaid", 3000), Updates("price-pro", "active", 4000);
    assert 2000 <= c2.now <= c3.now;
    LeftBehind(REACTIVATED);
    hide *;
    LeftUnpaid();
    Reactivated();
    TwoCalls(PAID, 2000, c2, c3);
    AfterPayment([c2, c3]);
  }

  lemma LeftBehind(db: Db)
    requires db == REACTIVATED
    ensures "row" in db.billings && db.billings["row"].status == "active" && db.billings["row"].expiresAt > 4000
    ensures db.billings["row"].userId == "ann" && db.billings["row"].productId == "pro"
    ensures OnFreeTier(db, "ann") && !OwnsCurrentProduct(db, "ann")
  {
    ProductsFound();
  }

  /** An update that names no status takes a user whose row is unpaid to a paid product
      (see Subscriptions.UpdateKeepsRevokedOnFreeExactly). */
  lemma StatuslessUpdateLeavesFreeTier()
    ensures var calls := [SignsUp("ann", "ann@old.org", 1000), Pays("ann@old.org", "row", 2000)]
                         + [Updates("price-pro", "unpaid", 3000), Updates("price-max", "", 4000)];
            var db := Run(EMPTY, calls);
            && AllowedRun(EMPTY, 0, calls)
            && "row" in db.billings && db.billings["row"].status == "unpaid" && db.billings["row"].userId == "ann"
            && "ann" in db.users && db.users["ann"].currentProductId == Some("max") && !RevokedOnFree(db)
  {
    var c2, c3 := Updates("price-pro", "unpaid", 3000), Updates("price-max", "", 4000);
    assert 2000 <= c2.now <= c3.now;
    Promoted(MOVED_UP);
    hide *;
    LeftUnpaid();
    MovedUp();
    TwoCalls(PAID, 2000, c2, c3);
    AfterPayment([c2, c3]);
  }

  lemma Promoted(db: Db)
    requires db == MOVED_UP
    ensures "row" in db.billings && db.billings["row"].status == "unpaid" && db.billings["row"].userId == "ann"
    ensures "ann" in db.users && db.users["ann"].currentProductId == Some("max") && !RevokedOnFree(db)
  {
    ProductsFound();
  }

  // ------------------------------------------------------------- two rows for one subscription (see Payments)

  function ChangesAddress(id: string, email: string, now: nat): Call {
    At(UpdateProfile(id, ProfileUpdates(Set(email), Keep, Keep, Keep)), now, "none")
  }

  const MOVED := PAID.(users := map["ann" := ANN_PAID.(email := "ann@new.org", updatedAt := 3000)])

  const BOTH := MOVED.(users := MOVED.users["bob" := NewUserRow("bob", "ann@old.org", 4000)])

  const TWO_ROWS := Db(BOTH.users["bob" := NewUserRow("bob", "ann@old.org", 4000).(currentProductId := Some("pro"),
                                                                               updatedAt := 5000)],
                       BOTH.billings["second" := Row("bob", "active", 5000)], PRODUCTS)

  lemma MoveStep(db: Db, id: string, email: string, now: nat)
    requires Inv(db) && "none" !in db.users && id in db.users
    requires forall u :: u in db.users && u != id ==> db.users[u].email != email
    ensures Allowed(db, ChangesAddress(id, email, now)) && Inv(Step(db, ChangesAddress(id, email, now)))
    ensures Step(db, ChangesAddress(id, email, now)) == PutUser(db, id, db.users[id].(email := email, updatedAt := now))
  {
    var c := ChangesAddress(id, email, now);
    hide Inv, Possible, UpdateUserProfile;
    assert Allowed(db, c) && Step(db, c) == UpdateUserProfile(db, id, c.action.updates, now).db;
    hide *;
    KeepsInv(db, c);
    AddressWrites(db, id, email, now);
  }

  lemma AddressWrites(db: Db, id: string, email: string, now: nat)
    requires Inv(db) && id in db.users
    requires forall u :: u in db.users && u != id ==> db.users[u].email != email
    ensures UpdateUserProfile(db, id, ProfileUpdates(Set(email), Keep, Keep, Keep), now).db
         == PutUser(db, id, db.users[id].(email := email, updatedAt := now))
  {
    var updates := ProfileUpdates(Set(email), Keep, Keep, Keep);
    ProfileExactly(db, id, updates, now);
    hide *;
    OnlyRowIsPut(db, UpdateUserProfile(db, id, updates, now).db, id);
  }

  lemma AnnMoves()
    ensures var c := ChangesAddress("ann", "ann@new.org", 3000);
            Allowed(PAID, c) && Step(PAID, c) == MOVED && Inv(MOVED)
  {
    SignedUpAndPaid();
    hide Inv, Step, Allowed;
    MoveStep(PAID, "ann", "ann@new.org", 3000);
  }

  lemma TakenOver()
    ensures var c := SignsUp("bob", "ann@old.org", 4000);
            Allowed(MOVED, c) && Step(MOVED, c) == BOTH && Inv(BOTH)
  {
    AnnMoves();
    hide Inv, Step, Allowed;
    SignUpStep(MOVED, "bob", "ann@old.org", 4000);
  }

  lemma Renewed()
    ensures var c := Pays("ann@old.org", "second", 5000);
            Allowed(BOTH, c) && Step(BOTH, c) == TWO_ROWS && Inv(TWO_ROWS)
  {
    TakenOver();
    hide Inv, Step, Allowed;
    PayStep(BOTH, "bob", "second", "ann@old.org", 5000);
    assert Step(BOTH, Pays("ann@old.org", "second", 5000)).users == TWO_ROWS.users;
  }

  const TAKEN_OVER := [ChangesAddress("ann", "ann@new.org", 3000)]
                      + [SignsUp("bob", "ann@old.org", 4000), Pays("ann@old.org", "second", 5000)]

  lemma TwoRowsReached()
    ensures var calls := [SignsUp("ann", "ann@old.org", 1000), Pays("ann@old.org", "row", 2000)] + TAKEN_OVER;
            AllowedRun(EMPTY, 0, calls) && Run(EMPTY, calls) == TWO_ROWS && Inv(TWO_ROWS)
  {
    var c2, c3, c4 := ChangesAddress("ann", "ann@new.org", 3000), SignsUp("bob", "ann@old.org", 4000),
        Pays("ann@old.org", "second", 5000);
    AnnMoves();
    TakenOver();
    Renewed();
    hide Inv, Step, Allowed, MOVED, BOTH, TWO_ROWS, PAID, EMPTY;
    TwoCalls(MOVED, 3000, c3, c4);
    First(PAID, 2000, c2, [c3, c4]);
    AfterPayment(TAKEN_OVER);
  }

  /** A user pays and changes address, another signs up with the old address, and the renewal arrives under it: two rows
      carry the subscription, and a payment failure handled twice is handled once on each. */
  lemma TwoRowsCarryOneSubscription()
    ensures var calls := [SignsUp("ann", "ann@old.org", 1000), Pays("ann@old.org", "row", 2000)] + TAKEN_OVER;
            var db, e := Run(EMPTY, calls), InvoicePaymentFailed("sub");
            && AllowedRun(EMPTY, 0, calls) && Inv(db)
            && Carries(db, "row", "sub") && Carries(db, "second", "sub") && !OneRowEach(db)
            && !HarmlessTwice(db, Delivery(e, 0, "", Some("second")), Delivery(e, 0, "", Some("row")))
  {
    TwoRowsReached();
    hide *;
    TwoRowsFail(TWO_ROWS);
  }

  lemma TwoRowsShown(db: Db)
    requires db == TWO_ROWS
    ensures Carries(db, "row", "sub") && Carries(db, "second", "sub")
    ensures !GivesUp(db, InvoicePaymentFailed("sub")) && !Shows(db, "row", InvoicePaymentFailed("sub"))
  {
  }

  lemma TwoRowsFail(db: Db)
    requires Inv(db) && db == TWO_ROWS
    ensures Carries(db, "row", "sub") && Carries(db, "second", "sub") && !OneRowEach(db)
    ensures var e := InvoicePaymentFailed("sub");
            !HarmlessTwice(db, Delivery(e, 0, "", Some("second")), Delivery(e, 0, "", Some("row")))
  {
    var e := InvoicePaymentFailed("sub");
    AsKeyed(db);
    TwoRowsShown(db);
    hide Inv, Keyed, HarmlessTwice, Shows, GivesUp, TWO_ROWS;
    assert !AtMostOneRowFor(db, "sub");
    OtherRowChanges(db, e, "row", "second");
  }

  // ------------------------------------------------------------- codes, tokens and links within their second

  const REQUESTED := SIGNED_UP.(users := map["ann" := NewUserRow("ann", "ann@old.org", 1000).(updatedAt := 2000,
    emailVerificationToken := Some(Sign("ann", EmailChange("111111", "ann@new.org", 0), 2, CHANGE_SECONDS)))])

  function Asks(id: string, email: string, code: string, now: nat): Call {
    At(RequestChange(id, email, code), now, "none")
  }

  lemma AskStep(db: Db, id: string, email: string, code: string, now: nat)
    requires Inv(db) && "none" !in db.users && id in db.users
    requires forall u :: u in db.users ==> db.users[u].email != email
    ensures Allowed(db, Asks(id, email, code, now)) && Inv(Step(db, Asks(id, email, code, now)))
    ensures Step(db, Asks(id, email, code, now)) == PutUser(db, id, db.users[id].(updatedAt := now,
              emailVerificationToken := Some(Sign(id, EmailChange(code, email, 0), Seconds(now), CHANGE_SECONDS))))
  {
    var c := Asks(id, email, code, now);
    hide Inv, Possible, RequestEmailChange;
    assert Allowed(db, c) && Step(db, c) == RequestEmailChange(db, id, email, code, true, now).db;
    hide *;
    KeepsInv(db, c);
    RequestExactly(db, id, email, code, true, now);
  }

  lemma Requested()
    ensures var c := Asks("ann", "ann@new.org", "111111", 2000);
            Allowed(SIGNED_UP, c) && Step(SIGNED_UP, c) == REQUESTED && Inv(REQUESTED)
  {
    SignedUp();
    hide Inv, Step, Allowed;
    AskStep(SIGNED_UP, "ann", "ann@new.org", "111111", 2000);
  }

  ghost predicate HasAddress(db: Db, id: string, email: string) { id in db.users && db.users[id].email == email }

  /** A wrong code changes the address, whichever of the two writes comes first
      (see TokenTheorems.AddressChangesExactly). */
  lemma WrongCodeChangesAddress(order: Order)
    requires !order.CheckerOnly?
    ensures var calls := [SignsUp("ann", "ann@old.org", 1000), Asks("ann", "ann@new.org", "111111", 2000)];
            var reply := VerifyEmailChange(Run(EMPTY, calls), "ann", "222222", order, 3000);
            AllowedRun(EMPTY, 0, calls) && reply.result.Ok? && HasAddress(reply.db, "ann", "ann@new.org")
  {
    SignedUp();
    Requested();
    hide Inv, Step, Allowed, VerifyEmailChange, REQUESTED, SIGNED_UP, EMPTY;
    TwoCalls(EMPTY, 0, SignsUp("ann", "ann@old.org", 1000), Asks("ann", "ann@new.org", "111111", 2000));
    WrongCodeAccepted(REQUESTED, order);
  }

  lemma WrongCodeAccepted(db: Db, order: Order)
    requires Inv(db) && db == REQUESTED && !order.CheckerOnly?
    ensures var reply := VerifyEmailChange(db, "ann", "222222", order, 3000);
            reply.result.Ok? && HasAddress(reply.db, "ann", "ann@new.org")
  {
    AddressChangesExactly(db, "ann", "222222", order, 3000);
    var t := db.users["ann"].emailVerificationToken.value;
    assert Refusal(Some(t), 3000).None?;
    assert !Clashes(db, "ann", ChangedUser(db.users["ann"], t.claims.newEmail, 3000));
    hide VerifyEmailChange, Inv;
  }

  /** A wrong code tried half-way through the 15 minutes ends the change (see EmailService.FirstWrongCodeLeavesHalf). */
  lemma WrongCodeEndsChange()
    ensures var t := Sign("ann", EmailChange("111111", "ann@new.org", 0), 2, CHANGE_SECONDS);
            Live(t, 452000) && t.exp == 902 && Reissue(t, 452000).exp == 452 && !Live(Reissue(t, 452000), 452000)
  {
  }

  function Resends(id: string, now: nat): Call { At(ResendVerification(id), now, "none") }

  lemma ResendStep(db: Db, id: string, now: nat)
    requires Inv(db) && "none" !in db.users && id in db.users && !db.users[id].emailVerified
    ensures Allowed(db, Resends(id, now)) && Inv(Step(db, Resends(id, now)))
    ensures Step(db, Resends(id, now))
         == PutUser(db, id, db.users[id].(updatedAt := now, emailVerificationToken := Some(VerificationLink(id, now))))
  {
    var c := Resends(id, now);
    hide Inv, Possible, ResendVerificationEmail;
    assert Allowed(db, c) && Step(db, c) == ResendVerificationEmail(db, id, true, now).db;
    hide *;
    KeepsInv(db, c);
    ResendExactly(db, id, true, now);
  }

  /** A verification link works although a newer one was sent, in the same second (see
      TokenTheorems.ResentLinkExactly). */
  lemma OlderLinkAccepted(clears: bool)
    ensures var calls := [SignsUp("ann", "ann@old.org", 1000), Resends("ann", 1500)];
            && AllowedRun(EMPTY, 0, calls)
            && VerifyUserEmail(Run(EMPTY, calls), Signed(VerificationLink("ann", 1000)), clears, 1999).result.Ok?
  {
    var c0, c1 := SignsUp("ann", "ann@old.org", 1000), Resends("ann", 1500);
    SignedUp();
    hide Inv, Step, Allowed, VerifyUserEmail;
    ResendStep(SIGNED_UP, "ann", 1500);
    TwoCalls(EMPTY, 0, c0, c1);
    VerificationExactly(Step(SIGNED_UP, c1), Signed(VerificationLink("ann", 1000)), clears, 1999);
  }

  function LogsIn(email: string, now: nat): Call { At(Login(email, true), now, "none") }

  lemma LoginStep(db: Db, id: string, now: nat)
    requires Inv(db) && "none" !in db.users && id in db.users && db.products == PRODUCTS
    ensures Allowed(db, LogsIn(db.users[id].email, now)) && Inv(Step(db, LogsIn(db.users[id].email, now)))
    ensures Step(db, LogsIn(db.users[id].email, now)) == PutUser(db, id, Issued(db, id, now))
  {
    var c := LogsIn(db.users[id].email, now);
    assert Allowed(db, c);
    OneByEmail(db);
    hide Inv, Allowed;
    KeepsInv(db, c);
    ProductsFound();
    LoginExactly(db, db.users[id].email, true, now);
    assert !Stuck(db, id, now);
    hide AuthenticateUser, Issued, Stuck;
  }

  /** A refresh token is accepted twice in the second of its issue (see TokenTheorems.RedeemedAgainExactly). */
  lemma RefreshTokenAcceptedTwice()
    ensures var calls := [SignsUp("ann", "ann@old.org", 1000), LogsIn("ann@old.org", 2000)];
            var db, t := Run(EMPTY, calls), Signed(GenerateTokens("ann", 2000).refreshToken);
            && AllowedRun(EMPTY, 0, calls)
            && RefreshAccessToken(db, t, 2500).result.Ok?
            && RefreshAccessToken(RefreshAccessToken(db, t, 2500).db, t, 2500).result.Ok?
  {
    var c0, c1 := SignsUp("ann", "ann@old.org", 1000), LogsIn("ann@old.org", 2000);
    SignedUp();
    hide Inv, Step, Allowed, RefreshAccessToken, HasExpiredSubscription;
    LoginStep(SIGNED_UP, "ann", 2000);
    TwoCalls(EMPTY, 0, c0, c1);
    AcceptedTwice(Step(SIGNED_UP, c1));
  }

  lemma AcceptedTwice(db: Db)
    requires Inv(db) && db.products == PRODUCTS && "ann" in db.users
    requires db.users["ann"].refreshToken == Some(GenerateTokens("ann", 2000).refreshToken)
    ensures var t := Signed(GenerateTokens("ann", 2000).refreshToken);
            && RefreshAccessToken(db, t, 2500).result.Ok?
            && RefreshAccessToken(RefreshAccessToken(db, t, 2500).db, t, 2500).result.Ok?
  {
    var t := GenerateTokens("ann", 2000).refreshToken;
    ProductsFound();
    RefreshesWhenStored(db, t, 2500);
    RedeemedAgainExactly(db, t, 2500);
    hide RefreshAccessToken, Inv, HasExpiredSubscription;
  }
}

# Verified model of the SaaS template's protocols

This project models, in Dafny, the parts of the SaaS template that carry state and proves properties of them: the
subscription state machine that the payment provider's webhooks drive, the rotating tokens between the server and the
browser, the email-change codes, and the text transformers that the persistence layer and the price list rest on.
`dafny verify dfyconfig.toml` checks all of it.

## How it is organised

The server's tables are a value `Db` (`Rows.dfy`) and every call is a function from one `Db` to the next and a result
(`BillingService.dfy`, `AuthService.dfy`, `EmailService.dfy`). The class `Database` and the methods in
`BillingCalls.dfy`, `AuthCalls.dfy` and `EmailCalls.dfy` run the same calls step by step, as the source does: lookups,
writes in order, throws, and transactions that roll back. Each is proved equal to its function and, where it stands for
a whole call, to keep the rules of `System.Inv`. The theorems are about the functions:

- `WebhookEffects.dfy`: each handler comes to at most one atomic write of one user's row and product.
- `WebhookOutcomes.dfy`, `AccountOutcomes.dfy`, `LinkOutcomes.dfy`: what every event, login, refresh, gate and step of the
  link comes to, in terms of the tables and the store alone, with the error that each failure gives.
- `Subscriptions.dfy`, `SubscriptionRuns.dfy`: what runs of webhook deliveries keep, and which events show nothing.
- `System.dfy`: all calls together, the rules that every reachable state meets.
- `TokenTheorems.dfy`: refresh rotation, the one pending email token, codes, expired subscriptions.
- `CallOutcomes.dfy`: for each account call, exactly when it succeeds and what it changes, and from that which calls
  touch a user's product and session at all.
- `Payments.dfy`: whom a payment reaches, and when two rows come to carry one subscription.
- `Projections.dfy`: a user's subscription does not depend on the other users, over runs of all calls.
- `PaidProducts.dfy`: exactly when a user's product is that of their row, over runs of all calls.
- `Witnesses.dfy`: runs from empty tables on for everything that goes otherwise than one may expect.
- `Link.dfy`, `LinkClient.dfy`: the browser's request link, as steps of the event loop between two awaits.
- `Agreement.dfy`: the link against the rotating server over a network that delays and loses answers.
- `CaseConversion.dfy`, `FieldNames.dfy`, `Pricing.dfy`, `PricingConfig.dfy`: names and records, the names the
  repositories use, prices, and the plan list.

## Conventions

- An empty string stands for a missing one and a zero timestamp for a missing one wherever the source only asks whether
  the value is truthy. Dates are milliseconds since the epoch; `iat` and `exp` of a token are whole seconds.
- A call is one atomic step. Webhook deliveries are handled one after the other: the row lookup at
  back-end/src/services/billing.service.ts:16 precedes the transaction, and no constraint makes `user_id` unique.
- No constraint makes `external_subscription_id` unique either. A lookup by it may return any row that carries the id:
  `Delivery.row` says which, and `Possible` that it is one of them.
- Signing is injective and sets `exp = iat + expiresIn`, with the payload's own `iat` if it has one. A token verifies
  while the current second is before `exp` (section 4.1.4 of RFC 7519). What bcrypt, Google and the mailer answer, the
  keys of new rows and the clock are parameters; in runs the clock never goes back.
- The code writes `undefined` to columns it means to clear (back-end/src/services/auth.service.ts:226, 256, 324).
  The flag `clears` says whether that clears the column, and every theorem holds for both values.
- The check of an email-change code is started and not awaited (back-end/src/services/email.service.ts:158). `Order`
  says how its write falls: before the caller's, after it, or as the only one because its unhandled rejection ends the
  process. Every theorem holds for all three.
- `toFixed` follows section 21.1.3.3 of ECMA-262, over exact fractions, for numbers below 10^21.

## Where the code does not do what one may expect

Where a property fails, a theorem gives the exact condition and a lemma of `Witnesses.dfy` an input at which it fails.

- The comment at back-end/src/services/email.service.ts:55 says that a wrong code preserves the expiry. The code counts
  the remaining seconds from the old `iat`, so each wrong code brings the expiry forward by the time that had passed
  (`RequestedChain`), the expiry stays only when the code is tried in the second of the request
  (`ReissueKeepsExpiryExactly`), and a first wrong code in the second half of the 15 minutes ends the change
  (`FirstWrongCodeLeavesHalf`; `WrongCodeEndsChange`).
- The comment at back-end/src/services/email.service.ts:160 says that the code is valid there. Since the check is not
  awaited, the address may change whatever the code: `AddressChangesExactly` says when, for each order of the writes, and
  `WrongCodeChangesAddress` is a run with a wrong code.
- docs/api/auth.md:113 says that logout revokes the refresh token. Whether it does depends on what the query builder
  does with `undefined`.
- A user's product need not be that of their row. `AgreementExactly` says exactly when it is, after any run of calls: the
  last call that had a say decides, and `Verdict` lists which events have one. A re-activation with the same product has
  none (back-end/src/services/billing.service.ts:94), so that a row that was left unpaid and is active again leaves its
  user on the free tier (`ReactivationLeavesFreeTier`).
- An update without a status may move a revoked user to a paid product: `UpdateKeepsRevokedOnFreeExactly`, and the run
  `StatuslessUpdateLeavesFreeTier`.
- A payment finds its user by email alone (back-end/src/services/billing.service.ts:9). After a change of address a
  renewal leaves the subscription's row as it is, and fails unless somebody else has taken the old address
  (`RenewalExactly`); in that case the other user gets it and two rows carry the subscription (`TwoRowsExactly`; the run
  is `TwoRowsCarryOneSubscription`).
- A webhook delivered twice is harmless except when two rows carry one subscription id. `DuplicateDeliveryExact` says
  exactly when it then is, and the same run ends where it is not.
- A refresh token redeemed in the second of its issue is replaced by itself, and is accepted again
  (`RedeemedAgainExactly`; `RefreshTokenAcceptedTwice`); likewise a verification link after a resend in that second
  (`ResentLinkExactly`; `OlderLinkAccepted`).

## Model

| member | source | states |
|---|---|---|
| WebhookEffects.WebhookIsOneWrite | back-end/src/controllers/billing.controller.ts:17-123 | every delivery, through its reads, writes, throws and rollbacks, comes to nothing or to one atomic write of one row together with at most its owner's product |
| WebhookOutcomes.PaidOutcome | back-end/src/controllers/billing.controller.ts:25-65 | an invoice without lines or for a price that no product carries is acknowledged and writes nothing; one without subscription, price or period end, or for an email that nobody has, fails and writes nothing; every other books the price's product on the row, or a new row, and the product of the user with the email |
| WebhookOutcomes.UpdateOutcome | back-end/src/controllers/billing.controller.ts:81-112 | an update without period end fails, for an unknown subscription is acknowledged, revoking without a free tier fails, all without a trace; else "canceled" or "unpaid" takes the row's user to a free product, another known product takes the user there, and otherwise the user is left alone, with the row's product, status and expiry as told |
| WebhookOutcomes.FailedPaymentOutcome | back-end/src/services/billing.service.ts:58-67 | a failed payment makes the found row past due and nothing else; without a subscription it fails |
| WebhookOutcomes.DeletionOutcome | back-end/src/services/billing.service.ts:106-125 | a deletion cancels the found row as of now and takes its user to a free product, or fails without a trace if there is none |
| WebhookOutcomes.UnhandledOutcome | back-end/src/controllers/billing.controller.ts:24-122 | every other event is acknowledged and writes nothing |
| WebhookOutcomes.RevokedUserIsOnFreeTier | back-end/src/services/billing.service.ts:92-93 | after a deletion, or an update to "canceled" or "unpaid", the found row's user is on a product marked as free |
| WebhookOutcomes.PlainUpdateKeepsProducts | back-end/src/services/billing.service.ts:92-102 | every other status with no known product, or the row's own, leaves every user's row alone |
| WebhookOutcomes.ProductByPriceExactly | back-end/src/database/repositories/product.repository.ts:17-25 | the lookup finds a product that carries the price, and none iff no product does |
| WebhookOutcomes.FreeTierExactly | back-end/src/database/repositories/product.repository.ts:38-46 | the lookup finds a product marked as free, and none iff no product is |
| Subscriptions.EffectShape | back-end/src/services/billing.service.ts:8-125 | that write concerns one user, creates a row only for a user without one, leaves the product with the row or the free tier, and goes to the free tier when it revokes |
| Projections.ProjectionOverCalls | back-end/src/services/billing.service.ts:8-125 | in any run of calls of any kind in which a user keeps the email and each subscription id is billed to one email, the user ends with the same row, product and session included, and the same billing row, as when the deliveries for other users' subscriptions do not arrive at all |
| Projections.ProjectionFromTwins | back-end/src/services/billing.service.ts:8-125 | the same from any two databases that show the user alike and of the others everything but products, sessions and billings |
| Projections.TwinsCall | back-end/src/services/auth.service.ts:83-327 | no account call carries another user's product, session or billing over to the user |
| Subscriptions.Projection | back-end/src/services/billing.service.ts:8-125 | for runs of deliveries alone, in which each subscription id is billed to one email by the invoices that the handler accepts, a user's row, product and billing row at the end equal those of the run of the user's own events |
| Subscriptions.ProjectionFrom | back-end/src/services/billing.service.ts:8-125 | the same from any two databases that show the user alike |
| Subscriptions.OwnEvent | back-end/src/services/billing.service.ts:8-125 | a user's own event is possible and has the same effect in every database that shows the user alike |
| Subscriptions.ForeignEvent | back-end/src/services/billing.service.ts:8-125 | an event for somebody else's subscription shows a user nothing |
| Subscriptions.RunKeepsRules | back-end/src/services/billing.service.ts:16-54 | along every run of deliveries each user has at most one row and is on the free tier or the product of their own row; a canceled or unpaid row's user is on the free tier as long as updates carry a status |
| Subscriptions.DeliveredKeepsRevokedOnFree | back-end/src/services/billing.service.ts:84-101 | no delivery with a status leaves a canceled or unpaid row with a user on a paid product |
| Subscriptions.UpdateKeepsRevokedOnFreeExactly | back-end/src/services/billing.service.ts:79-103 | an update breaks that rule exactly when it names no status and moves a revoked row to another product than its own and the free tier's |
| SubscriptionRuns.UncarriedIsInert | back-end/src/services/billing.service.ts:58-125 | in any run, the events of a subscription that no row carries can be dropped without changing the final database, until a payment for it arrives |
| SubscriptionRuns.SupersededIsInert | back-end/src/services/billing.service.ts:33-45 | a payment that moves the only row of a subscription to another one makes all later events of the old one droppable |
| PaidProducts.AgreementFromPaymentOn | back-end/src/services/billing.service.ts:33-101 | from a payment on, whatever sign-ups, logins, refreshes, profile and email changes, deliveries for anybody and events that the handler rejects come in between, the user's product is their row's product, as long as no accepted event revokes one of the subscriptions or is a payment of the user for another, and no expiry downgrade happens |
| PaidProducts.AgreementKept | back-end/src/services/billing.service.ts:58-104 | the same from any state in which user and row agree |
| PaidProducts.AgreementExactly | back-end/src/services/billing.service.ts:8-125 | after any run of calls of any kind, a user's product is that of their own row iff the last call that had a say made it so, or, if none had, it was so before |
| PaidProducts.AgreementAfterDelivery | back-end/src/services/billing.service.ts:92-101 | one delivery: a payment for the user and an update to another known product make user and row agree, a revocation does iff the row is left on the free tier's product, and every other event leaves it as it was |
| PaidProducts.AccountCallProduct | back-end/src/services/auth.service.ts:68-81 | a call other than a webhook keeps all rows, and moves a user's product iff it issues tokens to that user, the subscription has expired and there is a free tier |
| Payments.RenewalExactly | back-end/src/services/billing.service.ts:8-55 | a renewal renews the row that carries its subscription iff the row's user still has the invoice's email, otherwise that row and user are untouched; if nobody has the email it fails and writes nothing |
| Payments.TwoRowsExactly | back-end/src/services/billing.service.ts:19-46 | when no two rows carry one subscription, a delivery brings that about iff it is a payment for one user and another user's row carries its subscription |
| Payments.BilledOnceMeansOneRow | back-end/src/services/billing.service.ts:8-46 | as long as the rows of every user are those whose subscription is billed to the user's email, no two rows carry one subscription |
| SubscriptionRuns.DuplicateDelivery | back-end/src/controllers/billing.controller.ts:24-120 | handling an event twice leaves users and billings as handling it once, up to updatedAt and, on canceled rows of a deleted subscription, the time of the deletion, although creation becomes update and change becomes no change |
| SubscriptionRuns.DuplicateDeliveryExact | back-end/src/services/billing.service.ts:58-125 | for events found by subscription id, a second delivery is harmless whatever rows the lookups return iff at most one row carries the id, or the handler gives up, or every such row already shows the outcome |
| SubscriptionRuns.ShownExactly | back-end/src/services/billing.service.ts:58-125 | handling an event leaves everything but times iff its row and owner already show the outcome |
| SubscriptionRuns.RevocationRollsBack | back-end/src/services/billing.service.ts:79-124 | without a free tier product a revocation throws and the row already written is rolled back |
| BillingCalls.RegisterUserBilling | back-end/src/services/billing.service.ts:8-56 | the payment's lookups and its transaction equal their function: new row or update, then the user's product, or nothing at all |
| BillingCalls.UpdateBillingOnPaymentFailed | back-end/src/services/billing.service.ts:58-67 | the failed payment equals its function on some row that carries the subscription |
| BillingCalls.UpdateBillingOnSubscriptionUpdated | back-end/src/services/billing.service.ts:69-104 | the update equals its function on some row that carries the subscription, rolled back whole when it throws |
| BillingCalls.UpdateBillingOnSubscriptionDeleted | back-end/src/services/billing.service.ts:106-125 | the deletion equals its function on some row that carries the subscription, rolled back whole when it throws |
| BillingCalls.HandleEvent | back-end/src/controllers/billing.controller.ts:24-120 | the switch over events, with the products looked up and the expiry picked, equals its function |
| BillingCalls.ProcessBillingWebhook | back-end/src/controllers/billing.controller.ts:17-123 | the handler equals its function and keeps the entitlement, token and revocation rules |
| BillingCalls.DowngradeToFreeTier | back-end/src/services/auth.service.ts:78-81 | the downgrade equals its function: the user on the free tier, or an error and nothing written |
| System.ReachableRules | back-end/src/services/billing.service.ts:8-125 | in every state that sign-up, logins, refreshes, email calls, profile updates and webhooks reach, each user has at most one row and is on the free tier or their row's product, revoked users are on the free tier, stored tokens name their row, and the free tier stays |
| System.StepKeepsInv | back-end/src/services/auth.service.ts:83-327 | every single call keeps those rules, and moves each user's stored tokens only in the allowed ways |
| System.InitialRules | back-end/src/database/migrations/001_create_users_table.ts:3-18 | the empty tables meet the rules |
| System.NoRowMeansFree | back-end/src/services/auth.service.ts:109-122 | in such a state a user without a billing row is on the free tier |
| System.IssueIsOneWrite | back-end/src/services/auth.service.ts:126-137 | the common end of the token-issuing calls is one write of the user's product and refresh token, or fails with nothing written when the free tier is missing |
| System.GoogleMoves | back-end/src/services/auth.service.ts:83-138 | Google login, by id, by linking or by creating, writes only what one call may write to a user's row |
| System.SignupMoves | back-end/src/services/auth.service.ts:163-200 | sign-up adds at most one user, on the free tier, with a pending token of this moment |
| System.ChangeMoves | back-end/src/services/email.service.ts:136-182 | in whichever order the two writes of an email change fall, the row ends with a cleared, kept or reissued token and stays unique |
| System.AccountMovesKeepInv | back-end/src/services/auth.service.ts:83-327 | what the calls other than webhooks may write keeps all rules |
| TokenTheorems.RefreshTokenNamesItsOwner | back-end/src/database/repositories/user.repository.ts:40-46 | a lookup by refresh token finds the user whom the token names or nobody |
| TokenTheorems.RedeemedRow | back-end/src/services/auth.service.ts:202-223 | a redeemed token was the stored one of the user it names, and its successor takes its place on that row alone |
| TokenTheorems.DisplacedTokenIsDead | back-end/src/services/auth.service.ts:202-209 | a refresh token that is not the stored one of its user, once the second of its issue is over, is refused after every continuation |
| TokenTheorems.RedeemedTokenIsDead | back-end/src/services/auth.service.ts:202-223 | a refresh token redeemed in a later second than its issue is refused after every continuation |
| TokenTheorems.RedeemedAgainExactly | back-end/src/services/auth.service.ts:63-66 | redeemed twice in one moment, it is accepted again iff it was issued in that second |
| TokenTheorems.RefreshesWhenStored | back-end/src/services/auth.service.ts:202-223 | a valid refresh token works iff it is the stored one of the user it names and no downgrade fails for want of a free tier |
| TokenTheorems.TokenCallsDowngrade | back-end/src/services/auth.service.ts:68-81 | right after login, refresh or Google login, a user whom the gate would refuse as expired is on the free tier, and every billing row is unchanged |
| TokenTheorems.IssueDowngrades | back-end/src/services/auth.service.ts:149-155 | the product changes only for a user whom the gate would refuse |
| TokenTheorems.GateAgreesWithLogin | back-end/src/trpc/middlewares/auth.middleware.ts:68-84 | the gate demands payment iff the login-time check finds the subscription expired |
| AccountOutcomes.GateExactly | back-end/src/trpc/middlewares/auth.middleware.ts:68-84 | over the rows: NOT_FOUND iff no row is the user's, PAYMENT_REQUIRED iff a row of the user expired before now, pass iff a row of the user expires now or later |
| AccountOutcomes.ExpiredExactly | back-end/src/services/auth.service.ts:68-76 | the login-time check finds exactly the users with a row that expired before now |
| TokenTheorems.VerifiedForGood | back-end/src/services/auth.service.ts:229-259 | a verified address stays verified after every run |
| TokenTheorems.EarlierPendingTokensAreDead | back-end/src/services/auth.service.ts:243-246 | once a link is resent or a change requested, every pending token of an earlier second is refused after every continuation |
| TokenTheorems.ResentLinkExactly | back-end/src/services/auth.service.ts:261-284 | after a resend the link sent before works iff it was sent in the same second |
| TokenTheorems.ReachableChains | back-end/src/services/email.service.ts:54-79 | in every reachable state a pending change has had at most five wrong codes and expires within 15 minutes of its request |
| TokenTheorems.CheckStoresTry | back-end/src/services/email.service.ts:49-80 | a code leaves the chain's next token in the slot, unless the address is changed after the check |
| System.CodeWrites | back-end/src/services/email.service.ts:136-182 | for each order of the two writes, the row that a code leaves, and success iff the address is free and a wrong code's rejection does not end the process |
| TokenTheorems.AddressChangesExactly | back-end/src/services/email.service.ts:136-182 | for a live change token with code, address and fewer than 5 attempts: the address changes iff nobody else has it and, only when the check's rejection ends the process first, the code is right; what the row then holds for each order of the writes; which error; and without such a token the refusal, with nothing written |
| CallOutcomes.LoginExactly | back-end/src/services/auth.service.ts:140-161 | login succeeds iff a user has the email, the password matches and an expired user can be downgraded; it writes that user's product and token only, and a failure writes nothing |
| AccountOutcomes.LoginOutcome | back-end/src/services/auth.service.ts:140-161 | a login with a user's email and a matching password gives that user tokens, moving the product to a free one iff a row of theirs has run out, or fails with nothing written if it has and no product is free; every other is refused as unauthorized |
| AccountOutcomes.RefreshOutcomeExactly | back-end/src/services/auth.service.ts:202-223 | the same for a refresh token that is signed, live and stored on the row of the user it names; every other is refused as unauthorized |
| AccountOutcomes.GeneratedExactly | back-end/src/services/auth.service.ts:63-66 | the tokens are the user's own, without a purpose, issued in this second, for one hour and seven days |
| AccountOutcomes.KnownToGoogle | back-end/src/services/auth.service.ts:93-138 | a Google login with a known Google id gives tokens to the user who has it |
| AccountOutcomes.LinkedByGoogle | back-end/src/services/auth.service.ts:95-103 | with an unknown Google id and a user's email it links that user, verified from then on, and gives tokens to them |
| AccountOutcomes.NewFromGoogle | back-end/src/services/auth.service.ts:104-123 | with neither known it creates a verified user on a free product and gives tokens to them, or fails if no product is free |
| CallOutcomes.GoogleExactly | back-end/src/services/auth.service.ts:83-138 | Google login succeeds iff its user is new and there is a free tier, or is known and can be downgraded if expired; the row found by id, linked by email or created holds the id and the new token, and no other row changes |
| CallOutcomes.SignupExactly | back-end/src/services/auth.service.ts:163-200 | sign-up succeeds iff there is a free tier and nobody has the email, and adds exactly an unverified user on the free tier with a link pending for 30 minutes; a failure writes nothing |
| CallOutcomes.VerificationExactly | back-end/src/services/auth.service.ts:229-259 | a link is accepted iff it is live, of its kind and the pending token of the user it names, who is then verified; nobody else changes; otherwise unauthorized if it does not verify, else a bad request |
| CallOutcomes.ResetExactly | back-end/src/services/auth.service.ts:303-327 | a reset succeeds iff its token is live, of its kind and names a user, whose password hash it sets; nobody else changes |
| CallOutcomes.LogoutExactly | back-end/src/services/auth.service.ts:225-227 | logout succeeds iff the user exists and touches only their refresh token and updatedAt |
| CallOutcomes.ProfileExactly | back-end/src/services/user.service.ts:25-33 | a profile update succeeds iff the user exists and takes nobody else's email, and changes the named fields only |
| CallOutcomes.RequestExactly | back-end/src/services/email.service.ts:82-134 | a change is stored iff the user exists and nobody has the address, with no attempts and for 15 minutes, and the call succeeds iff moreover the code is sent; otherwise not found, bad request or conflict |
| CallOutcomes.ResendExactly | back-end/src/services/auth.service.ts:261-284 | a link is stored iff the user exists and is unverified, and the call succeeds iff moreover the email is sent |
| CallOutcomes.OtherCallsKeepSession | back-end/src/services/auth.service.ts:83-327 | an account call that issues no tokens to a user keeps the user's product and, unless it logs the user out or resets the password, the stored refresh token |
| CallOutcomes.IssuingCallsProduct | back-end/src/services/auth.service.ts:126-137 | a call that issues tokens to a user moves the product iff the subscription has expired and there is a free tier |
| CallOutcomes.WebhookKeepsSessions | back-end/src/services/billing.service.ts:8-125 | no delivery touches a stored refresh token |
| EmailService.EmailChangeChain | back-end/src/services/email.service.ts:54-79 | along any tries, code, address and iat stay, attempts count the wrong codes checked and never pass 5, the reported remainder is never negative, exp never grows |
| EmailService.RequestedChain | back-end/src/services/email.service.ts:103-115 | from a request, exp is iat + 900 less the seconds passed at each wrong code |
| EmailService.ReissueKeepsExpiryExactly | back-end/src/services/email.service.ts:55-69 | a wrong code keeps the expiry iff it is tried in the second of the request |
| EmailService.FirstWrongCodeLeavesHalf | back-end/src/services/email.service.ts:55-69 | after the first wrong code the change is open iff less than half of its time had passed |
| AuthCalls.HasExpiredSubscription | back-end/src/services/auth.service.ts:68-76 | the check finds a row of the user that has expired |
| AuthCalls.AuthenticateUser | back-end/src/services/auth.service.ts:140-161 | login equals its function and keeps the rules |
| AuthCalls.AuthenticateWithGoogle | back-end/src/services/auth.service.ts:83-138 | Google login equals its function and keeps the rules |
| AuthCalls.RegisterUser | back-end/src/services/auth.service.ts:163-200 | sign-up equals its function and keeps the rules |
| AuthCalls.RefreshAccessToken | back-end/src/services/auth.service.ts:202-223 | refresh equals its function and keeps the rules |
| AuthCalls.RevokeUserRefreshToken | back-end/src/services/auth.service.ts:225-227 | logout equals its function, for either meaning of writing undefined |
| AuthCalls.VerifyUserEmail | back-end/src/services/auth.service.ts:229-259 | verification equals its function and keeps the rules |
| AuthCalls.ResendVerificationEmail | back-end/src/services/auth.service.ts:261-284 | the resend equals its function: the token stays stored when sending fails |
| AuthCalls.ResetPassword | back-end/src/services/auth.service.ts:303-327 | the reset equals its function, for either meaning of writing undefined |
| AuthCalls.UpdateUserProfile | back-end/src/services/user.service.ts:25-33 | a profile update changes the named fields of one user |
| AuthCalls.BillingGate | back-end/src/trpc/middlewares/auth.middleware.ts:58-96 | the gate's three outcomes, by the user's row and the time |
| EmailCalls.RequestEmailChange | back-end/src/services/email.service.ts:82-134 | the request equals its function: refused for the same or a taken address, otherwise a token with no attempts stored |
| EmailCalls.VerifyEmailChangeCode | back-end/src/services/email.service.ts:49-80 | a token of another purpose is refused; a right code writes nothing and is accepted; a wrong one stores the reissued token and is rejected with the number of attempts left, never negative |
| EmailCalls.VerifyEmailChange | back-end/src/services/email.service.ts:136-182 | the confirmation equals its function for each order of the two writes, and keeps the rules |
| Database.Database.GetUserByEmail | back-end/src/database/repositories/user.repository.ts:16-22 | finds the user with the email, or nobody |
| Database.Database.GetUserByGoogleId | back-end/src/database/repositories/user.repository.ts:24-30 | finds the user with the Google id, or nobody |
| Database.Database.GetUserByRefreshToken | back-end/src/database/repositories/user.repository.ts:40-46 | finds the one user with the stored token, or nobody |
| Database.Database.CreateUser | back-end/src/database/repositories/user.repository.ts:8-14 | adds the row, or fails with nothing written when its email or Google id is taken |
| Database.Database.UpdateUserById | back-end/src/database/repositories/user.repository.ts:56-80 | changes the named fields and updatedAt of one row; fails with nothing written for an unknown id or a taken email or Google id |
| Database.Database.GetBillingByUserId | back-end/src/database/repositories/billing.repository.ts:18-24 | finds the user's row, or none |
| Database.Database.GetBillingByExternalSubscriptionId | back-end/src/database/repositories/billing.repository.ts:37-43 | finds some row that carries the subscription, or none if none does |
| Database.Database.CreateBilling | back-end/src/database/repositories/billing.repository.ts:9-16 | adds the row |
| Database.Database.UpdateBillingById | back-end/src/database/repositories/billing.repository.ts:45-69 | changes the named fields and updatedAt of one row, or fails for an unknown id |
| Link.SingleFlight | front-end/src/lib/trpc.ts:12-53 | for any interleaving of n requests at most one refresh is in flight, at most n are started and at most 2n requests sent |
| Link.NeverHandedSettled | front-end/src/lib/trpc.ts:15-53 | in every reachable state a caller is handed a promise that had not settled before the call |
| Link.SettledPromiseStays | front-end/src/lib/trpc.ts:20-53 | the stored promise is a settled one iff the refresh found no token and ended before the assignment |
| Link.RetriedOnce | front-end/src/lib/trpc.ts:68-89 | a request is sent again only after its own refresh succeeded |
| Link.NeverSentAgain | front-end/src/lib/trpc.ts:68-89 | a request that was sent again, or is over, is never sent again in any run |
| LinkOutcomes.RetriedAfterRefresh | front-end/src/lib/trpc.ts:74-88 | a request answered 401 while no refresh ran and a token was stored waits for its own refresh, whatever interleaves, can go on iff that has ended, and is sent again iff the new tokens were read, ending with its 401 otherwise |
| LinkOutcomes.ResumedExactly | front-end/src/lib/trpc.ts:75-88 | a waiting request whose refresh settled is sent again iff it succeeded |
| LinkOutcomes.StartsRefresh | front-end/src/lib/trpc.ts:15-29 | a 401 while no refresh runs starts one with the stored token and waits for it; without a token it has failed at once and nothing is stored |
| LinkOutcomes.AnsweredForGood | front-end/src/lib/trpc.ts:74-88 | any other first answer, and a 401 while a refresh runs, ends the request and does nothing else |
| LinkOutcomes.RefreshAnswered | front-end/src/lib/trpc.ts:29-38 | an answer with tokens is read next; a refusal or loss ends the refresh with nothing stored |
| LinkOutcomes.RefreshRead | front-end/src/lib/trpc.ts:40-49 | a readable answer puts each of its tokens in its place and keeps the profile; an unreadable one empties the store; either way the refresh is over |
| Link.RunKeepsInv | front-end/src/lib/trpc.ts:12-89 | every run keeps the guards naming the one running refresh, the waiters apart and the budget of sends and refreshes |
| LinkClient.Client.RefreshAccessToken | front-end/src/lib/trpc.ts:15-53 | the guard, the body that runs before the assignment and the assignment equal their function |
| LinkClient.Client.Respond | front-end/src/lib/trpc.ts:68-74 | the first answer of a request equals its step and keeps the link's invariant |
| LinkClient.Client.Resume | front-end/src/lib/trpc.ts:74-88 | a settled refresh sends the request again iff it succeeded |
| LinkClient.Client.Answer | front-end/src/lib/trpc.ts:29-49 | an answer is read on, a refusal or loss clears the store and both guards |
| LinkClient.Client.Read | front-end/src/lib/trpc.ts:40-49 | the new tokens replace the stored ones and both guards are reset, or the store is cleared |
| LinkClient.TokenStore.SetTokens | front-end/src/utils/auth.ts:38-41 | replaces both tokens and keeps the profile |
| LinkClient.TokenStore.ClearAuthData | front-end/src/utils/auth.ts:45-52 | leaves nothing stored |
| Agreement.ClientAgreesWithServer | front-end/src/lib/trpc.ts:15-89 | under any interleaving of requests, refreshes, answers, losses and any other calls to the server that give the user no tokens, the client's refresh token is absent, or the server's stored one, or a refresh is in flight; only once a logout or a reset has ended the session may the server have none left |
| Agreement.SessionGoesOn | front-end/src/lib/trpc.ts:15-89 | from a page with the server's token on, under any interleaving, the link never logs its user out as long as no refresh answer is lost or unreadable, no call ends the session and each refresh token reaches the server alive; without a refresh in flight the token is the server's |
| Agreement.NeverLogsOut | front-end/src/lib/trpc.ts:15-89 | the same from any state of the protocol in which the client has a token |
| Agreement.StaysLoggedInExactly | front-end/src/lib/trpc.ts:29-49 | one step leaves the client with a token and no refusal on its way iff it is none of these failures |
| Agreement.ServedSlot | back-end/src/services/auth.service.ts:202-223 | serving a refresh call stores the successor of the user's token exactly when it succeeds, and changes nothing when it fails |
| Agreement.StepKeeps | front-end/src/lib/trpc.ts:15-89 | each step keeps track of where the token of a running refresh is: on its way, used with its successor on its way back, or being read |
| CaseConversion.CamelOfSnakeExact | back-end/src/utils/case-conversion.ts:1-7 | a name comes back from its column iff no underscore in it is followed by a small letter |
| CaseConversion.SnakeOfCamelExact | back-end/src/utils/case-conversion.ts:1-7 | a column comes back from its field iff it has no capital A-Z |
| CaseConversion.CaseBijection | back-end/src/utils/case-conversion.ts:1-7 | the two translations are inverse bijections between those names and those columns |
| CaseConversion.SnakeLetters | back-end/src/utils/case-conversion.ts:1-3 | letter by letter: each capital A-Z turns into an underscore and its small letter, everything else stays |
| CaseConversion.CamelLetters | back-end/src/utils/case-conversion.ts:5-7 | from the left: an underscore and a small letter a-z turn into the capital, everything else stays |
| CaseConversion.RekeyLossless | back-end/src/utils/case-conversion.ts:9-25 | rekeying by an invertible translation loses no key, invents none and keeps each value |
| CaseConversion.RekeyExactly | back-end/src/utils/case-conversion.ts:9-25 | for any translation, the keys are the translated ones and under each is the value of the last entry translated to it |
| CaseConversion.RecordRoundTrip | back-end/src/utils/case-conversion.ts:9-25 | a record written as a row and read back is the record, whatever order its columns come in |
| CaseConversion.UpdateFrame | back-end/src/database/repositories/user.repository.ts:72-79 | translating updates into a row and reading the row back changes exactly the named fields |
| FieldNames.NameTranslates | back-end/src/utils/case-conversion.ts:1-7 | a name made of words translates to its column and back |
| FieldNames.UsersAreNamed | back-end/src/types/user.ts:33-47 | every field of a user is such a name |
| FieldNames.BillingsAreNamed | back-end/src/types/billing.ts:5-33 | every field of a billing is such a name |
| FieldNames.TableUpdateFrame | back-end/src/database/repositories/billing.repository.ts:59-68 | an update of a row of such a table by its fields, written and read back, replaces exactly the named fields, and reads nothing but fields |
| CaseConversion.KeysToSnakeCase | back-end/src/utils/case-conversion.ts:9-16 | the loop builds the rekeyed object, a later entry winning |
| CaseConversion.KeysToCamelCase | back-end/src/utils/case-conversion.ts:18-25 | the same in the other direction |
| Pricing.FormatPriceRoundTrip | shared/utils/pricing.utils.ts:7-10 | every whole number of cents is printed with a point before its last two digits and reads back as itself |
| Pricing.RoundNearest | shared/utils/pricing.utils.ts:7-10 | the printed number is the largest of the nearest ones |
| Pricing.PrintedPlainly | shared/utils/pricing.utils.ts:7-10 | every price is digits with a point before the last two, and a zero in front only as the one digit there |
| Pricing.FormatPriceNear | shared/utils/pricing.utils.ts:7-10 | every number less than half a cent from a whole number of cents is printed as that number, so that rounding errors in the division do not show |
| Pricing.MonthlyEquivalentNear | shared/utils/pricing.utils.ts:7-20 | for every number less than a twenty-fourth of a cent from the twelfth of a yearly price, twelve printed prices are within 6 cents of the yearly price, whichever way ties round, and equal to it iff it is a multiple of twelve |
| Pricing.MonthlyEquivalentWithinSixCents | shared/utils/pricing.utils.ts:18-20 | the same for the exact twelfth |
| PricingConfig.ValidationExact | shared/validations/pricing.validation.ts:3-26 | a plan list is accepted iff exactly one plan is the free tier, it costs nothing, and every other has a non-empty price id |
| PricingConfig.ErrorExactly | shared/validations/pricing.validation.ts:6-25 | which error a list gets: none free, several free, the free one not priced 0, or the first paid plan without a price id |
| PricingConfig.FreeTierAlwaysThere | back-end/src/database/seeds/001_seed_products.ts:6-23 | after seeding an accepted list the free plan's product is found as the free tier in every later state |
| PricingConfig.SeedExactly | back-end/src/database/seeds/001_seed_products.ts:9-22 | the seed inserts one row a plan with its price, price id and mark, unless two are marked as free |
| PricingConfig.PlansAreFound | back-end/src/database/repositories/product.repository.ts:17-25 | in every later state a plan's price id finds a product of a plan with that price id, and no other finds anything |
| Witnesses.ReactivationLeavesFreeTier | back-end/src/services/billing.service.ts:92-101 | a run that ends with an active, unexpired row on a paid product and its user on the free tier |
| Witnesses.StatuslessUpdateLeavesFreeTier | back-end/src/services/billing.service.ts:83-101 | a run that ends with an unpaid row and its user on a paid product |
| Witnesses.TwoRowsCarryOneSubscription | back-end/src/services/billing.service.ts:9-46 | a run that ends with two rows for one subscription, where an event handled twice changes both |
| Witnesses.WrongCodeChangesAddress | back-end/src/services/email.service.ts:158-174 | a run that ends with the address changed by a wrong code, whichever write comes first |
| Witnesses.OlderLinkAccepted | back-end/src/services/auth.service.ts:243-258 | a run in which a link is accepted after a newer one was sent |
| Witnesses.RefreshTokenAcceptedTwice | back-end/src/services/auth.service.ts:202-223 | a run in which a refresh token is accepted twice |

## Left out

- User interface, hooks and context providers: framework-owned state.
- Stripe, Google, Resend, bcrypt, Express, Knex and the cryptography of tokens: foreign libraries, replaced by the conventions above.
- Concurrent calls inside one lookup-then-write window of the server: each call is one step.
- AuthCalls.RevokeUserRefreshToken: does not say that the stored token is gone, because the query builder decides what writing `undefined` does; likewise for the pending token in VerifyUserEmail and the refresh token in ResetPassword.
- Agreement.ClientAgreesWithServer: covers traffic through the link only; a login or another client's refresh for the same user is not among the other calls (the token that it displaces is refused for good, `DisplacedTokenIsDead`), nor are the second refresh guard in front-end/src/lib/auth.ts and a page reload in the middle of a refresh.
- CaseConversion.KeysToSnakeCase: keys are plain names; the name `__proto__`, which a JavaScript object treats apart, is not modelled.
- Pricing.FormatPriceRoundTrip: divides exactly, where the source divides doubles; FormatPriceNear and MonthlyEquivalentNear bound the error that may come in between, and that doubles keep within the bound is not modelled.
- Case conversion inside the repositories is proved on its own (RecordRoundTrip, TableUpdateFrame); the tables of the state machine have typed fields.
- The cooldown of email-change requests: its throw is swallowed where it is raised (back-end/src/services/email.service.ts:41-43) and has no effect.
- forgotPassword, getUserProfile, the token getters and isTokenExpired, getAllProducts, getProductById, updateBillingByUserId, checkout and portal sessions: one lookup or one foreign call each.
- Reseeding a running system: products are written once, before the first call.
- Pricing.RoundNearest: numbers of 10^21 dollars and more, which toFixed prints in another form, are not modelled; the price column is a 32-bit integer (back-end/src/database/migrations/002_create_products_table.ts:8).
- Two products with one price id: the lookup takes the first in table order, which stays the seeded one.
- createdAt columns, error messages, loggers, input schemas and router wiring.

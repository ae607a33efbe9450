/** The tables and the repositories over them (back-end/src/database). Dates are milliseconds since the epoch. */
module Rows {
  import opened Common
  import opened Tokens

  datatype User = User(
    email: string, fullName: string, phone: string, age: int, passwordHash: string,
    googleId: Option<string>, refreshToken: Option<Token>, emailVerified: bool,
    emailVerificationToken: Option<Token>, currentProductId: Option<string>, updatedAt: nat)

  datatype Billing = Billing(
    userId: string, productId: string, externalSubscriptionId: string, externalCustomerId: string,
    status: string, expiresAt: int, updatedAt: nat)

  datatype Product = Product(id: string, priceInCents: int, externalPriceId: Option<string>, isFreeTier: bool)

  /** Users and billings by primary key. Products are written by the seed only, so their order never changes. */
  datatype Db = Db(users: map<string, User>, billings: map<string, Billing>, products: seq<Product>)

  // ------------------------------------------------------------- products

  function ProductByPrice(products: seq<Product>, priceId: string): Option<Product> {
    if products == [] then None
    else if products[0].externalPriceId == Some(priceId) then Some(products[0])
    else ProductByPrice(products[1..], priceId)
  }

  function FreeTier(products: seq<Product>): Option<Product> {
    if products == [] then None
    else if products[0].isFreeTier then Some(products[0])
    else FreeTier(products[1..])
  }

  // ------------------------------------------------------------- lookups
  // A query that at most one row can match is a function; the by-subscription
  // query may match several, and which row comes first is the database's choice.

  ghost predicate IsUserBy(db: Db, key: User -> bool, r: Option<string>) {
    match r
    case Some(id) => id in db.users && key(db.users[id])
    case None => forall id :: id in db.users ==> !key(db.users[id])
  }

  ghost function UserBy(db: Db, key: User -> bool): (r: Option<string>)
    ensures IsUserBy(db, key, r)
  {
    if id :| id in db.users && key(db.users[id]) then Some(id) else None
  }

  function HasEmail(email: string): User -> bool { (u: User) => u.email == email }

  function HasGoogleId(googleId: string): User -> bool { (u: User) => u.googleId == Some(googleId) }

  function HasRefreshToken(token: Token): User -> bool { (u: User) => u.refreshToken == Some(token) }

  ghost predicate IsBillingOf(db: Db, userId: string, r: Option<string>) {
    match r
    case Some(id) => id in db.billings && db.billings[id].userId == userId
    case None => forall id :: id in db.billings ==> db.billings[id].userId != userId
  }

  ghost function BillingOf(db: Db, userId: string): (r: Option<string>)
    ensures IsBillingOf(db, userId, r)
  {
    if id :| id in db.billings && db.billings[id].userId == userId then Some(id) else None
  }

  /** `r` is an answer that the query by subscription id may give. */
  ghost predicate IsBillingFor(db: Db, subscription: string, r: Option<string>) {
    match r
    case Some(id) => id in db.billings && db.billings[id].externalSubscriptionId == subscription
    case None => forall id :: id in db.billings ==> db.billings[id].externalSubscriptionId != subscription
  }

  ghost function SomeBillingFor(db: Db, subscription: string): (r: Option<string>)
    ensures IsBillingFor(db, subscription, r)
  {
    if id :| id in db.billings && db.billings[id].externalSubscriptionId == subscription then Some(id) else None
  }

  // ------------------------------------------------------------- updates

  datatype Field<+T> = Keep | Set(value: T)

  function Apply<T>(f: Field<T>, old_: T): T { if f.Set? then f.value else old_ }

  /** The fields named in an update, with the values given; every other field is kept. */
  datatype UserPatch = UserPatch(
    email: Field<string> := Keep, fullName: Field<string> := Keep, phone: Field<string> := Keep,
        age: Field<int> := Keep,
    passwordHash: Field<string> := Keep, googleId: Field<Option<string>> := Keep,
    refreshToken: Field<Option<Token>> := Keep, emailVerified: Field<bool> := Keep,
    emailVerificationToken: Field<Option<Token>> := Keep, currentProductId: Field<Option<string>> := Keep)

  function PatchUser(u: User, p: UserPatch, now: nat): User {
    User(Apply(p.email, u.email), Apply(p.fullName, u.fullName), Apply(p.phone, u.phone), Apply(p.age, u.age),
         Apply(p.passwordHash, u.passwordHash), Apply(p.googleId, u.googleId), Apply(p.refreshToken, u.refreshToken),
         Apply(p.emailVerified, u.emailVerified), Apply(p.emailVerificationToken, u.emailVerificationToken),
         Apply(p.currentProductId, u.currentProductId), now)
  }

  /** Storing `u` under `id` would break the unique constraint on emails or on Google ids. */
  ghost predicate Clashes(db: Db, id: string, u: User) {
    exists other :: other in db.users && other != id
      && (db.users[other].email == u.email || (u.googleId.Some? && db.users[other].googleId == u.googleId))
  }

  function PutUser(db: Db, id: string, u: User): Db { db.(users := db.users[id := u]) }

  function PutBilling(db: Db, id: string, b: Billing): Db { db.(billings := db.billings[id := b]) }

  /** An update that matches no row throws when its absent row is converted; a clash is a database error. */
  ghost function UpdateUserById(db: Db, id: string, p: UserPatch, now: nat): Result<Db> {
    if id !in db.users then Fail(Internal)
    else if Clashes(db, id, PatchUser(db.users[id], p, now)) then Fail(Internal)
    else Ok(PutUser(db, id, PatchUser(db.users[id], p, now)))
  }

  /** Inserts under the key the database generates. */
  ghost function CreateUser(db: Db, freshId: string, u: User): Result<Db> {
    if Clashes(db, freshId, u) then Fail(Internal) else Ok(PutUser(db, freshId, u))
  }

  datatype BillingPatch = BillingPatch(
    productId: Field<string> := Keep, externalSubscriptionId: Field<string> := Keep,
        externalCustomerId: Field<string> := Keep,
    status: Field<string> := Keep, expiresAt: Field<int> := Keep)

  function PatchBilling(b: Billing, p: BillingPatch, now: nat): Billing {
    Billing(b.userId, Apply(p.productId, b.productId), Apply(p.externalSubscriptionId, b.externalSubscriptionId),
            Apply(p.externalCustomerId, b.externalCustomerId), Apply(p.status, b.status),
                Apply(p.expiresAt, b.expiresAt), now)
  }

  function UpdateBillingById(db: Db, id: string, p: BillingPatch, now: nat): Result<Db> {
    if id !in db.billings then Fail(Internal) else Ok(PutBilling(db, id, PatchBilling(db.billings[id], p, now)))
  }

  // ------------------------------------------------------------- constraints

  ghost predicate UniqueUsers(db: Db) {
    forall i, j :: i in db.users && j in db.users && i != j ==>
      && db.users[i].email != db.users[j].email
      && (db.users[i].googleId.Some? ==> db.users[i].googleId != db.users[j].googleId)
  }

  /** At most one billing row per user, and every row has its user. */
  ghost predicate RowsOwned(db: Db) {
    && (forall i, j :: i in db.billings && j in db.billings && i != j ==>
        db.billings[i].userId != db.billings[j].userId)
    && (forall i :: i in db.billings ==> db.billings[i].userId in db.users)
  }

  ghost predicate Keyed(db: Db) { UniqueUsers(db) && RowsOwned(db) }

  ghost predicate OwnRefreshToken(u: string, t: Token) {
    t.userId == u && t.claims == Session && t.exp == t.iat + REFRESH_SECONDS
  }

  ghost predicate OwnPendingToken(u: string, t: Token) {
    t.userId == u && (t.claims.EmailChange? || (t.claims == EmailVerification && t.exp == t.iat + VERIFICATION_SECONDS))
  }

  /** The tokens on a user's row are that user's, each of the kind its column is for. */
  ghost predicate OwnTokens(u: string, user: User) {
    && (user.refreshToken.Some? ==> OwnRefreshToken(u, user.refreshToken.value))
    && (user.emailVerificationToken.Some? ==> OwnPendingToken(u, user.emailVerificationToken.value))
  }

  ghost predicate TokensOwned(db: Db) {
    forall u :: u in db.users ==> OwnTokens(u, db.users[u])
  }
}

/** The database as an object, with the repositories (back-end/src/database/repositories) as its methods.
    Each method is proved against the function that specifies it. */
module Database {
  import opened Common
  import opened Tokens
  import opened Rows

  /** The database after a transaction: its result, or what was there before. */
  function Committed(r: Result<Db>, before: Db): Db { if r.Ok? then r.value else before }

  function Status(r: Result<Db>): Result<()> { if r.Ok? then Ok(()) else Fail(r.error) }

  class Database {
    var users: map<string, User>
    var billings: map<string, Billing>
    const products: seq<Product>

    ghost function State(): Db
      reads this
    {
      Db(users, billings, products)
    }

    constructor (products: seq<Product>)
      ensures State() == Db(map[], map[], products)
    {
      users, billings, this.products := map[], map[], products;
    }

    // ----------------------------------------------------------- repositories

    method GetUserByEmail(email: string) returns (r: Option<string>)
      requires UniqueUsers(State())
      ensures r == UserBy(State(), HasEmail(email))
    {
      if id :| id in users && users[id].email == email {
        assert HasEmail(email)(users[id]);
        r := Some(id);
      } else {
        r := None;
      }
    }

    method GetUserByGoogleId(googleId: string) returns (r: Option<string>)
      requires UniqueUsers(State())
      ensures r == UserBy(State(), HasGoogleId(googleId))
    {
      if id :| id in users && users[id].googleId == Some(googleId) {
        assert HasGoogleId(googleId)(users[id]);
        r := Some(id);
      } else {
        r := None;
      }
    }

    method GetUserByRefreshToken(token: Token) returns (r: Option<string>)
      requires TokensOwned(State())
      ensures r == UserBy(State(), HasRefreshToken(token))
    {
      forall u | u in users && users[u].refreshToken == Some(token) ensures u == token.userId {
        assert OwnTokens(u, State().users[u]);
      }
      if id :| id in users && users[id].refreshToken == Some(token) {
        assert HasRefreshToken(token)(users[id]);
        r := Some(id);
      } else {
        r := None;
      }
    }

    method GetBillingByUserId(userId: string) returns (r: Option<string>)
      requires RowsOwned(State())
      ensures r == BillingOf(State(), userId)
    {
      if id :| id in billings && billings[id].userId == userId {
        r := Some(id);
      } else {
        r := None;
      }
    }

    /** Any row that carries the subscription may come first. */
    method GetBillingByExternalSubscriptionId(subscription: string) returns (r: Option<string>)
      ensures IsBillingFor(State(), subscription, r)
    {
      if id :| id in billings && billings[id].externalSubscriptionId == subscription {
        r := Some(id);
      } else {
        r := None;
      }
    }

    method CreateUser(freshId: string, user: User) returns (r: Result<()>)
      modifies this`users
      ensures State() == Committed(Rows.CreateUser(old(State()), freshId, user), old(State()))
      ensures r == Status(Rows.CreateUser(old(State()), freshId, user))
    {
      if exists other :: other in users && other != freshId
                         && (users[other].email == user.email
                             || (user.googleId.Some? && users[other].googleId == user.googleId)) {
        return Fail(Internal);
      }
      users := users[freshId := user];
      r := Ok(());
    }

    method UpdateUserById(id: string, updates: UserPatch, now: nat) returns (r: Result<()>)
      modifies this`users
      ensures State() == Committed(Rows.UpdateUserById(old(State()), id, updates, now), old(State()))
      ensures r == Status(Rows.UpdateUserById(old(State()), id, updates, now))
    {
      if id !in users {
        return Fail(Internal);
      }
      var user := PatchUser(users[id], updates, now);
      if exists other :: other in users && other != id
                         && (users[other].email == user.email
                             || (user.googleId.Some? && users[other].googleId == user.googleId)) {
        return Fail(Internal);
      }
      users := users[id := user];
      r := Ok(());
    }

    method CreateBilling(freshId: string, billing: Billing)
      modifies this`billings
      ensures State() == PutBilling(old(State()), freshId, billing)
    {
      billings := billings[freshId := billing];
    }

    method UpdateBillingById(id: string, updates: BillingPatch, now: nat) returns (r: Result<()>)
      modifies this`billings
      ensures State() == Committed(Rows.UpdateBillingById(old(State()), id, updates, now), old(State()))
      ensures r == Status(Rows.UpdateBillingById(old(State()), id, updates, now))
    {
      if id !in billings {
        return Fail(Internal);
      }
      billings := billings[id := PatchBilling(billings[id], updates, now)];
      r := Ok(());
    }
  }
}

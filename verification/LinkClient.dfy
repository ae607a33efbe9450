/** The browser's token store (front-end/src/utils/auth.ts) and the link over it (front-end/src/lib/trpc.ts) as objects:
    each method is what one turn of the event loop runs, proved against the step that specifies it. */
module LinkClient {
  import opened Common
  import opened Tokens
  import opened AuthService
  import Link

  class TokenStore {
    var accessToken: Option<Token>
    var refreshToken: Option<Token>
    var user: Option<string>

    ghost function State(): Link.Store
      reads this
    {
      Link.Store(accessToken, refreshToken, user)
    }

    constructor ()
      ensures State() == Link.CLEARED
    {
      accessToken, refreshToken, user := None, None, None;
    }

    method SetTokens(access: Token, refresh: Token)
      modifies this`accessToken, this`refreshToken
      ensures State() == old(State()).(accessToken := Some(access), refreshToken := Some(refresh))
    {
      accessToken := Some(access);
      refreshToken := Some(refresh);
    }

    method ClearAuthData()
      modifies this
      ensures State() == Link.CLEARED
    {
      accessToken, refreshToken, user := None, None, None;
    }
  }

  class Client {
    var isRefreshing: bool
    var refreshPromise: Option<nat>
    const store: TokenStore
    // the event loop's own books: promises made, bodies suspended, results, requests, and what was sent and started in
    // all
    var promises: nat
    var running: map<nat, Link.Refresh>
    var settled: map<nat, bool>
    var requests: seq<Link.Request>
    var sends: nat
    var refreshes: nat

    ghost function State(): Link.State
      reads this, store
    {
      Link.State(isRefreshing, refreshPromise, store.State(), promises, running, settled, requests, sends, refreshes)
    }

    constructor (store: TokenStore, n: nat)
      ensures this.store == store && State() == Link.Fresh(store.State(), n)
      ensures Link.LinkInv(State())
    {
      this.store := store;
      isRefreshing, refreshPromise := false, None;
      promises, running, settled, sends, refreshes := 0, map[], map[], 0, 0;
      requests := seq(n, _ => Link.Unsent);
      new;
      Link.FreshInv(store.State(), n);
    }

    method Settle(p: nat, result: bool)
      modifies this`isRefreshing, this`refreshPromise, this`running, this`settled
      ensures State() == Link.Settle(old(State()), p, result)
    {
      isRefreshing := false;
      refreshPromise := None;
      running, settled := running - {p}, settled[p := result];
    }

    method RefreshAccessToken() returns (promise: nat)
      modifies this, store
      ensures Link.RefreshAccessToken(old(State())) == (State(), promise)
    {
      if isRefreshing && refreshPromise.Some? {
        return refreshPromise.value;
      }
      promise := promises;
      promises, refreshes := promises + 1, refreshes + 1;
      isRefreshing := true;
      if store.refreshToken.None? {
        store.ClearAuthData();
        Settle(promise, false);
      } else {
        running := running[promise := Link.Fetching(store.refreshToken.value)];
      }
      refreshPromise := Some(promise);
    }

    method Send(i: nat)
      requires Link.LinkInv(State()) && Link.Enabled(State(), Link.Event.Send(i))
      modifies this
      ensures State() == Link.Step(old(State()), Link.Event.Send(i)) && Link.LinkInv(State())
    {
      Keep(Link.Event.Send(i));
      requests, sends := requests[i := Link.Sent], sends + 1;
    }

    method Respond(i: nat, unauthorized: bool)
      requires Link.LinkInv(State()) && Link.Enabled(State(), Link.Event.Respond(i, unauthorized))
      modifies this, store
      ensures State() == Link.Step(old(State()), Link.Event.Respond(i, unauthorized)) && Link.LinkInv(State())
    {
      Keep(Link.Event.Respond(i, unauthorized));
      hide Link.LinkInv;
      if unauthorized && !isRefreshing {
        var promise := RefreshAccessToken();
        requests := requests[i := Link.Waiting(promise)];
      } else {
        requests := requests[i := Link.Finished];
      }
    }

    method Resume(i: nat)
      requires Link.LinkInv(State()) && Link.Enabled(State(), Link.Event.Resume(i))
      modifies this
      ensures State() == Link.Step(old(State()), Link.Event.Resume(i)) && Link.LinkInv(State())
    {
      Keep(Link.Event.Resume(i));
      hide Link.LinkInv;
      if settled[requests[i].promise] {
        requests, sends := requests[i := Link.Resent], sends + 1;
      } else {
        requests := requests[i := Link.Finished];
      }
    }

    method RespondAgain(i: nat)
      requires Link.LinkInv(State()) && Link.Enabled(State(), Link.Event.RespondAgain(i))
      modifies this
      ensures State() == Link.Step(old(State()), Link.Event.RespondAgain(i)) && Link.LinkInv(State())
    {
      Keep(Link.Event.RespondAgain(i));
      requests := requests[i := Link.Finished];
    }

    method Break(i: nat)
      requires Link.LinkInv(State()) && Link.Enabled(State(), Link.Event.Break(i))
      modifies this
      ensures State() == Link.Step(old(State()), Link.Event.Break(i)) && Link.LinkInv(State())
    {
      Keep(Link.Event.Break(i));
      requests := requests[i := Link.Finished];
    }

    method Answer(p: nat, tokens: Option<SessionTokens>)
      requires Link.LinkInv(State()) && Link.Enabled(State(), Link.Event.Answer(p, tokens))
      modifies this, store
      ensures State() == Link.Step(old(State()), Link.Event.Answer(p, tokens)) && Link.LinkInv(State())
    {
      Keep(Link.Event.Answer(p, tokens));
      hide Link.LinkInv;
      if tokens.Some? {
        running := running[p := Link.Reading(tokens.value)];
      } else {
        store.ClearAuthData();
        Settle(p, false);
      }
    }

    method Read(p: nat, good: bool)
      requires Link.LinkInv(State()) && Link.Enabled(State(), Link.Event.Read(p, good))
      modifies this, store
      ensures State() == Link.Step(old(State()), Link.Event.Read(p, good)) && Link.LinkInv(State())
    {
      Keep(Link.Event.Read(p, good));
      hide Link.LinkInv;
      if good {
        var tokens := running[p].tokens;
        store.SetTokens(tokens.accessToken, tokens.refreshToken);
        Settle(p, true);
      } else {
        store.ClearAuthData();
        Settle(p, false);
      }
    }

    lemma Keep(e: Link.Event)
      requires Link.LinkInv(State()) && Link.Enabled(State(), e)
      ensures Link.LinkInv(Link.Step(State(), e))
    {
      Link.StepKeepsGuards(State(), e);
      Link.StepKeepsBudget(State(), e);
    }
  }
}

/** The client's request link (front-end/src/lib/trpc.ts) as steps of the event loop: each step is what runs between two
    awaits. */
module Link {
  import opened Common
  import opened Tokens
  import opened AuthService

  /** What the browser keeps (front-end/src/utils/auth.ts). */
  datatype Store = Store(accessToken: Option<Token>, refreshToken: Option<Token>, user: Option<string>)

  const CLEARED := Store(None, None, None)

  /** A refresh that has started and not settled: waiting for the server, or for the body of its answer. */
  datatype Refresh = Fetching(sent: Token) | Reading(tokens: SessionTokens)

  /** One request through the link. */
  datatype Request = Unsent | Sent | Waiting(promise: nat) | Resent | Finished

  /** `promises` counts the refresh promises made; `running` and `settled` are the ones pending and the results of the
      others. `sends` and `refreshes` count, over the whole run, the requests sent and the refreshes started. */
  datatype State = State(isRefreshing: bool, refreshPromise: Option<nat>, store: Store,
                         promises: nat, running: map<nat, Refresh>, settled: map<nat, bool>,
                         requests: seq<Request>, sends: nat, refreshes: nat)

  /** Both guards down, nothing running: a page with `n` requests to make. */
  function Fresh(store: Store, n: nat): State {
    State(false, None, store, 0, map[], map[], seq(n, _ => Unsent), 0, 0)
  }

  /** The finally block, after which the promise settles. */
  function Settle(s: State, p: nat, result: bool): State {
    s.(isRefreshing := false, refreshPromise := None, running := s.running - {p}, settled := s.settled[p := result])
  }

  /** Returns the promise handed out. Without a stored token the body runs to its end, finally block included, before
      the promise is assigned. */
  function RefreshAccessToken(s: State): (State, nat) {
    if s.isRefreshing && s.refreshPromise.Some? then (s, s.refreshPromise.value)
    else
      var p := s.promises;
      var started := s.(isRefreshing := true, promises := p + 1, refreshes := s.refreshes + 1);
      var body :=
        if s.store.refreshToken.None? then Settle(started.(store := CLEARED), p, false)
        else started.(running := s.running[p := Fetching(s.store.refreshToken.value)]);
      (body.(refreshPromise := Some(p)), p)
  }

  datatype Event =
    | Send(i: nat)
    | Respond(i: nat, unauthorized: bool)                        // the first answer to a request
    | Break(i: nat)                                              // the network fails a request
    | Resume(i: nat)                                             // a request's refresh has settled
    | RespondAgain(i: nat)                                       // the answer to the retried request
    | Answer(promise: nat, tokens: Option<SessionTokens>)        // a refresh is answered, or refused or lost
    | Read(promise: nat, good: bool)                             // its body is read, or cannot be

  predicate Enabled(s: State, e: Event) {
    match e
    case Send(i) => i < |s.requests| && s.requests[i].Unsent?
    case Respond(i, _) => i < |s.requests| && s.requests[i].Sent?
    case Break(i) => i < |s.requests| && (s.requests[i].Sent? || s.requests[i].Resent?)
    case Resume(i) => i < |s.requests| && s.requests[i].Waiting? && s.requests[i].promise in s.settled
    case RespondAgain(i) => i < |s.requests| && s.requests[i].Resent?
    case Answer(p, _) => p in s.running && s.running[p].Fetching?
    case Read(p, _) => p in s.running && s.running[p].Reading?
  }

  function Step(s: State, e: Event): State
    requires Enabled(s, e)
  {
    match e
    case Send(i) => s.(requests := s.requests[i := Sent], sends := s.sends + 1)
    case Respond(i, unauthorized) =>
      if unauthorized && !s.isRefreshing then
        var (s', p) := RefreshAccessToken(s);
        s'.(requests := s.requests[i := Waiting(p)])
      else s.(requests := s.requests[i := Finished])
    case Break(i) => s.(requests := s.requests[i := Finished])
    case Resume(i) =>
      if s.settled[s.requests[i].promise] then s.(requests := s.requests[i := Resent], sends := s.sends + 1)
      else s.(requests := s.requests[i := Finished])
    case RespondAgain(i) => s.(requests := s.requests[i := Finished])
    case Answer(p, tokens) =>
      if tokens.Some? then s.(running := s.running[p := Reading(tokens.value)])
      else Settle(s.(store := CLEARED), p, false)
    case Read(p, good) =>
      if good then
        var t := s.running[p].tokens;
        Settle(s.(store := s.store.(accessToken := Some(t.accessToken), refreshToken := Some(t.refreshToken))), p, true)
      else Settle(s.(store := CLEARED), p, false)
  }

  ghost predicate Run(s: State, events: seq<Event>, s': State)
    decreases |events|
  {
    if events == [] then s' == s else Enabled(s, events[0]) && Run(Step(s, events[0]), events[1..], s')
  }

  // ------------------------------------------------------------- single flight

  /** The guards name the one running refresh. */
  ghost predicate Guarded(s: State) {
    && (forall p :: p in s.running ==> s.isRefreshing && s.refreshPromise == Some(p))
    && (s.isRefreshing ==> s.refreshPromise.Some? && s.refreshPromise.value in s.running)
    && (forall p :: p in s.running || p in s.settled ==> p < s.promises)
    && s.running.Keys !! s.settled.Keys
  }

  /** Requests wait for promises that exist, no two for the same. */
  ghost predicate WaitersApart(s: State) {
    && (forall i :: 0 <= i < |s.requests| && s.requests[i].Waiting? ==>
        s.requests[i].promise in s.running || s.requests[i].promise in s.settled)
    && (forall i, j :: 0 <= i < j < |s.requests| && s.requests[i].Waiting? && s.requests[j].Waiting? ==>
        s.requests[i].promise != s.requests[j].promise)
  }

  function SendsLeft(r: Request): nat { if r.Unsent? then 2 else if r.Sent? || r.Waiting? then 1 else 0 }

  function RefreshesLeft(r: Request): nat { if r.Unsent? || r.Sent? then 1 else 0 }

  function Total(rs: seq<Request>, weight: Request -> nat): nat {
    if rs == [] then 0 else weight(rs[0]) + Total(rs[1..], weight)
  }

  lemma {:induction false} TotalUpdate(rs: seq<Request>, i: nat, r: Request, weight: Request -> nat)
    requires i < |rs|
    ensures Total(rs[i := r], weight) == Total(rs, weight) - weight(rs[i]) + weight(r)
  {
    if i == 0 {
      assert rs[0 := r][1..] == rs[1..];
    } else {
      assert rs[i := r][1..] == rs[1..][i - 1 := r];
      TotalUpdate(rs[1..], i - 1, r, weight);
    }
  }

  lemma {:induction false} TotalFresh(n: nat, weight: Request -> nat)
    ensures Total(seq(n, _ => Unsent), weight) == n * weight(Unsent)
  {
    if n == 0 {
    } else {
      TotalFresh(n - 1, weight);
      assert seq(n, _ => Unsent)[1..] == seq(n - 1, _ => Unsent);
      assert n * weight(Unsent) == weight(Unsent) + (n - 1) * weight(Unsent);
    }
  }

  /** What was sent and started, and what the requests may still send and start, stays within the budget. */
  ghost predicate WithinBudget(s: State) {
    && s.sends + Total(s.requests, SendsLeft) <= 2 * |s.requests|
    && s.refreshes + Total(s.requests, RefreshesLeft) <= |s.requests|
  }

  ghost predicate LinkInv(s: State) { Guarded(s) && WaitersApart(s) && WithinBudget(s) }

  lemma StepKeepsGuardsOnly(s: State, e: Event)
    requires Guarded(s) && Enabled(s, e)
    ensures Guarded(Step(s, e))
  {
  }

  lemma StartKeepsWaiters(s: State, i: nat)
    requires Guarded(s) && WaitersApart(s) && Enabled(s, Respond(i, true)) && !s.isRefreshing
    ensures WaitersApart(Step(s, Respond(i, true)))
  {
    var (s', p) := RefreshAccessToken(s);
    assert p == s.promises && (p in s'.running || p in s'.settled);
    assert forall q :: q in s.running || q in s.settled ==> q != p && (q in s'.running || q in s'.settled);
    hide Guarded;
  }

  lemma StepKeepsGuards(s: State, e: Event)
    requires Guarded(s) && WaitersApart(s) && Enabled(s, e)
    ensures Guarded(Step(s, e)) && WaitersApart(Step(s, e))
  {
    StepKeepsGuardsOnly(s, e);
    hide Guarded;
    if e.Respond? && e.unauthorized && !s.isRefreshing {
      StartKeepsWaiters(s, e.i);
      hide WaitersApart;
    } else {
      hide RefreshAccessToken;
    }
  }

  function Touched(e: Event): Option<nat> {
    match e
    case Answer(_, _) => None
    case Read(_, _) => None
    case _ => Some(e.i)
  }

  lemma StepKeepsBudget(s: State, e: Event)
    requires WithinBudget(s) && Enabled(s, e)
    ensures WithinBudget(Step(s, e)) && |Step(s, e).requests| == |s.requests|
  {
    if Touched(e).Some? {
      TouchedWithinBudget(s, e, Touched(e).value);
    }
  }

  lemma TouchedWithinBudget(s: State, e: Event, i: nat)
    requires WithinBudget(s) && Enabled(s, e) && Touched(e) == Some(i)
    ensures WithinBudget(Step(s, e)) && |Step(s, e).requests| == |s.requests|
  {
    var s' := Step(s, e);
    var r := s'.requests[i];
    assert s'.requests == s.requests[i := r];
    assert SendsLeft(r) + s'.sends - s.sends <= SendsLeft(s.requests[i]);
    assert RefreshesLeft(r) + s'.refreshes - s.refreshes <= RefreshesLeft(s.requests[i]);
    hide Step, Enabled;
    TotalUpdate(s.requests, i, r, SendsLeft);
    TotalUpdate(s.requests, i, r, RefreshesLeft);
  }

  lemma {:induction false} RunKeepsInv(s: State, events: seq<Event>, s': State)
    requires LinkInv(s) && Run(s, events, s')
    ensures LinkInv(s') && |s'.requests| == |s.requests|
    decreases |events|
  {
    if events == [] {
    } else {
      StepKeepsGuards(s, events[0]);
      StepKeepsBudget(s, events[0]);
      hide Step, Enabled, Guarded, WaitersApart, WithinBudget;
      RunKeepsInv(Step(s, events[0]), events[1..], s');
    }
  }

  lemma FreshInv(store: Store, n: nat)
    ensures LinkInv(Fresh(store, n))
  {
    TotalFresh(n, SendsLeft);
    TotalFresh(n, RefreshesLeft);
  }

  /** However `n` requests interleave, at most one refresh is in flight at any time, and at most `n` refreshes are
      started and `2n` requests sent in all. */
  lemma SingleFlight(store: Store, n: nat, events: seq<Event>, s: State)
    requires Run(Fresh(store, n), events, s)
    ensures |s.running| <= 1
    ensures s.refreshes <= n && s.sends <= 2 * n
  {
    FreshInv(store, n);
    RunKeepsInv(Fresh(store, n), events, s);
    if s.running != map[] {
      var p :| p in s.running;
      assert s.running.Keys == {p};
      assert |s.running| == |s.running.Keys|;
    }
  }

  /** Whoever asks for a refresh in a reachable state is handed a promise that had not settled before, although a
      settled one may still be stored. */
  lemma NeverHandedSettled(store: Store, n: nat, events: seq<Event>, s: State)
    requires Run(Fresh(store, n), events, s)
    ensures RefreshAccessToken(s).1 !in s.settled
    ensures s.isRefreshing ==> s.refreshPromise.Some? && s.refreshPromise.value in s.running
    ensures s.isRefreshing ==> RefreshAccessToken(s) == (s, s.refreshPromise.value)
  {
    FreshInv(store, n);
    RunKeepsInv(Fresh(store, n), events, s);
  }

  /** The stored promise is a settled one exactly when the last refresh found no token and finished before the
      assignment. */
  lemma SettledPromiseStays(s: State)
    requires LinkInv(s) && !s.isRefreshing
    ensures var (s', p) := RefreshAccessToken(s);
            (s'.refreshPromise.Some? && s'.refreshPromise.value in s'.settled && !s'.isRefreshing) <==>
                s.store.refreshToken.None?
  {
  }

  /** A request is sent again only after a refresh of its own that succeeded. */
  lemma RetriedOnce(s: State, e: Event, i: nat)
    requires Enabled(s, e) && i < |s.requests| && Step(s, e).requests[i].Resent? && !s.requests[i].Resent?
    ensures e == Resume(i) && s.requests[i].Waiting? && s.requests[i].promise in s.settled
              && s.settled[s.requests[i].promise]
  {
  }

  /** Once it was sent again, or is over, a request is never sent again in any run. */
  lemma {:induction false} NeverSentAgain(s: State, events: seq<Event>, s': State, i: nat)
    requires Run(s, events, s') && i < |s.requests| && (s.requests[i].Resent? || s.requests[i].Finished?)
    ensures Send(i) !in events && Resume(i) !in events
    ensures i < |s'.requests| && (s'.requests[i].Finished? || (s'.requests[i].Resent? && s.requests[i].Resent?))
    decreases |events|
  {
    if events == [] {
    } else {
      StaysSent(s, events[0], i);
      hide Step, Enabled;
      NeverSentAgain(Step(s, events[0]), events[1..], s', i);
    }
  }

  lemma StaysSent(s: State, e: Event, i: nat)
    requires Enabled(s, e) && i < |s.requests| && (s.requests[i].Resent? || s.requests[i].Finished?)
    ensures e != Send(i) && e != Resume(i) && i < |Step(s, e).requests|
    ensures Step(s, e).requests[i].Finished? || (Step(s, e).requests[i].Resent? && s.requests[i].Resent?)
  {
  }
}

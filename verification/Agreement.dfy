/** One client's link against the rotating server, with a network that may delay and lose answers. */
module Agreement {
  import opened Common
  import opened Tokens
  import opened Rows
  import opened AuthService
  import opened System
  import opened TokenTheorems
  import opened CallOutcomes
  import BillingService
  import Link

  /** `calls` are the refresh calls on their way to the server, by promise, and `answers` the server's answers on their
      way back; `ended` says that some call was to clear the user's session. */
  datatype World = World(link: Link.State, db: Db, calls: map<nat, Token>, answers: map<nat, Option<SessionTokens>>,
                         ended: bool)

  datatype Event =
    | Local(e: Link.Event)                     // a request's own traffic, or the reading of an answer's body
    | Serve(promise: nat, now: nat)            // the server handles a refresh call
    | Receive(promise: nat)                    // its answer arrives
    | Lose(promise: nat)                       // the client's call fails; the server may still handle it
    | Elsewhere(call: Call)                    // any other call but one that gives the user tokens

  ghost predicate Enabled(w: World, u: string, e: Event) {
    match e
    case Local(le) => !le.Answer? && Link.Enabled(w.link, le)
    case Serve(p, _) => p in w.calls
    case Receive(p) => p in w.answers && Link.Enabled(w.link, Link.Answer(p, w.answers[p]))
    case Lose(p) => Link.Enabled(w.link, Link.Answer(p, None))
    case Elsewhere(c) => Allowed(w.db, c) && !IssuesTo(w.db, c, u)
  }

  /** The calls that the refreshes running in `after` and not in `before` have put on the network. */
  ghost function Posted(before: Link.State, after: Link.State): map<nat, Token> {
    map p | p in after.running && p !in before.running && after.running[p].Fetching? :: after.running[p].sent
  }

  ghost function Step(w: World, u: string, e: Event): World
    requires Enabled(w, u, e)
  {
    match e
    case Local(le) =>
      var link := Link.Step(w.link, le);
      w.(link := link, calls := w.calls + Posted(w.link, link))
    case Serve(p, now) =>
      var reply := RefreshAccessToken(w.db, Signed(w.calls[p]), now);
      var answer := if reply.result.Ok? then Some(reply.result.value) else None;
      w.(db := reply.db, calls := w.calls - {p}, answers := w.answers[p := answer])
    case Receive(p) => w.(link := Link.Step(w.link, Link.Answer(p, w.answers[p])), answers := w.answers - {p})
    case Lose(p) => w.(link := Link.Step(w.link, Link.Answer(p, None)))
    case Elsewhere(c) => w.(db := System.Step(w.db, c), ended := w.ended || EndsSession(c, u))
  }

  ghost predicate Run(w: World, u: string, events: seq<Event>, w': World)
    decreases |events|
  {
    if events == [] then w' == w else Enabled(w, u, events[0]) && Run(Step(w, u, events[0]), u, events[1..], w')
  }

  ghost function Stored(w: World, u: string): Option<Token>
    requires u in w.db.users
  {
    w.db.users[u].refreshToken
  }

  /** The server stores the token, unless the user's session was ended. */
  ghost predicate Holds(w: World, u: string, t: Token)
    requires u in w.db.users
  {
    Stored(w, u) == Some(t) || (w.ended && Stored(w, u).None?)
  }

  /** The client's refresh token is absent, or the server's, or being replaced. */
  ghost predicate Agree(w: World, u: string) {
    && u in w.db.users
    && (w.link.store.refreshToken.None? || w.link.store.refreshToken == Stored(w, u) || w.link.running != map[])
  }

  /** Where the token of a running refresh is: on its way, used and its successor on its way back, or its successor
      being read. */
  ghost predicate Tracked(w: World, u: string, p: nat)
    requires p in w.link.running && u in w.db.users
  {
    match w.link.running[p]
    case Fetching(t) =>
      && w.link.store.refreshToken == Some(t)
      && (if p in w.calls then w.calls[p] == t && p !in w.answers && Holds(w, u, t)
          else p in w.answers && (w.answers[p].Some? ==> Holds(w, u, w.answers[p].value.refreshToken)))
    case Reading(tokens) => Holds(w, u, tokens.refreshToken) && p !in w.calls
  }

  ghost predicate WorldInv(w: World, u: string) {
    && Inv(w.db) && u in w.db.users
    && Link.Guarded(w.link)
    && (w.link.store.refreshToken.None? ==> w.link.running == map[])
    && (w.link.running == map[] && w.link.store.refreshToken.Some? ==> Holds(w, u, w.link.store.refreshToken.value))
    && (forall p :: p in w.link.running ==> Tracked(w, u, p))
    && (forall p :: p in w.calls && p !in w.link.running ==> w.link.store.refreshToken.None?)
    && (forall p :: p in w.calls || p in w.answers ==> p < w.link.promises)
  }

  /** A step that starts no refresh and touches neither store nor refreshes. */
  lemma QuietKeeps(w: World, u: string, link: Link.State)
    requires WorldInv(w, u) && Link.Guarded(link)
    requires link.running == w.link.running && link.store == w.link.store && link.promises == w.link.promises
    ensures WorldInv(w.(link := link, calls := w.calls + Posted(w.link, link)), u)
  {
    assert Posted(w.link, link) == map[];
    assert w.calls + map[] == w.calls;
    hide Inv, Link.Guarded;
    assert forall p :: p in link.running ==> Tracked(w, u, p);
  }

  lemma StartKeeps(w: World, u: string, i: nat)
    requires WorldInv(w, u) && Link.Enabled(w.link, Link.Respond(i, true)) && !w.link.isRefreshing
    ensures WorldInv(Step(w, u, Local(Link.Respond(i, true))), u)
  {
    var link := Link.Step(w.link, Link.Respond(i, true));
    LinkStarted(w.link, i);
    assert Step(w, u, Local(Link.Respond(i, true))) == w.(link := link, calls := w.calls + Posted(w.link, link));
    hide *;
    if w.link.store.refreshToken.Some? {
      PostKeeps(w, u, link, w.link.store.refreshToken.value);
    } else {
      assert w.calls + map[] == w.calls;
      ClearKeeps(w, u, link, w.answers);
    }
  }

  /** A refresh that a request starts: with a stored token it is under way, without one it is over. */
  lemma LinkStarted(s: Link.State, i: nat)
    requires Link.Guarded(s) && Link.Enabled(s, Link.Respond(i, true)) && !s.isRefreshing
    ensures var s' := Link.Step(s, Link.Respond(i, true));
            && Link.Guarded(s') && s.running == map[] && s'.promises == s.promises + 1
            && (s.store.refreshToken.Some? ==>
                  var t := s.store.refreshToken.value;
                  && s'.running == map[s.promises := Link.Fetching(t)] && s'.store == s.store
                  && Posted(s, s') == map[s.promises := t])
            && (s.store.refreshToken.None? ==>
                  s'.running == map[] && s'.store.refreshToken.None? && Posted(s, s') == map[])
  {
    Link.StepKeepsGuardsOnly(s, Link.Respond(i, true));
    assert s.running == map[];
    hide Link.Guarded;
  }

  /** A refresh has put its token on the network. */
  lemma PostKeeps(w: World, u: string, link: Link.State, t: Token)
    requires WorldInv(w, u) && Link.Guarded(link) && w.link.running == map[]
    requires link.running == map[w.link.promises := Link.Fetching(t)] && link.store == w.link.store
    requires link.promises == w.link.promises + 1 && w.link.store.refreshToken == Some(t)
    ensures WorldInv(w.(link := link, calls := w.calls + map[w.link.promises := t]), u)
  {
    hide Inv, Link.Guarded;
    var q, w' := w.link.promises, w.(link := link, calls := w.calls + map[w.link.promises := t]);
    assert q !in w.answers && Holds(w, u, t);
    assert Tracked(w', u, q);
    assert forall p :: p in w.calls ==> w.link.store.refreshToken.None?;
  }

  /** No refresh runs and the store is empty. */
  lemma ClearKeeps(w: World, u: string, link: Link.State, answers: map<nat, Option<SessionTokens>>)
    requires WorldInv(w, u) && Link.Guarded(link) && answers.Keys <= w.answers.Keys
    requires link.running == map[] && link.store.refreshToken.None? && link.promises >= w.link.promises
    ensures WorldInv(w.(link := link, answers := answers), u)
  {
    hide Inv, Link.Guarded;
  }

  lemma ReadKeeps(w: World, u: string, p: nat, good: bool)
    requires WorldInv(w, u) && Link.Enabled(w.link, Link.Read(p, good))
    ensures WorldInv(Step(w, u, Local(Link.Read(p, good))), u)
  {
    var link := Link.Step(w.link, Link.Read(p, good));
    LinkRead(w.link, p, good);
    assert Step(w, u, Local(Link.Read(p, good))) == w.(link := link, calls := w.calls + Posted(w.link, link));
    assert w.calls + map[] == w.calls;
    hide *;
    if good {
      StoredKeeps(w, u, p, link);
    } else {
      ClearKeeps(w, u, link, w.answers);
    }
  }

  /** A refresh whose answer has been read is over: with the new token in the store, or with an empty store. */
  lemma LinkRead(s: Link.State, p: nat, good: bool)
    requires Link.Guarded(s) && Link.Enabled(s, Link.Read(p, good))
    ensures var s' := Link.Step(s, Link.Read(p, good));
            && Link.Guarded(s') && s.running == map[p := s.running[p]] && s'.running == map[] && Posted(s, s') == map[]
            && s'.promises == s.promises
            && s'.store.refreshToken == if good then Some(s.running[p].tokens.refreshToken) else None
  {
    Link.StepKeepsGuardsOnly(s, Link.Read(p, good));
    assert forall q :: q in s.running ==> q == p;
    hide Link.Guarded;
  }

  lemma StoredKeeps(w: World, u: string, p: nat, link: Link.State)
    requires WorldInv(w, u) && Link.Guarded(link) && p in w.link.running && w.link.running[p].Reading?
    requires w.link.running == map[p := w.link.running[p]] && link.running == map[] && link.promises == w.link.promises
    requires link.store.refreshToken == Some(w.link.running[p].tokens.refreshToken)
    ensures WorldInv(w.(link := link), u)
  {
    assert Tracked(w, u, p);
    hide Inv, Link.Guarded;
  }

  lemma LocalKeeps(w: World, u: string, le: Link.Event)
    requires WorldInv(w, u) && Enabled(w, u, Local(le))
    ensures WorldInv(Step(w, u, Local(le)), u)
  {
    if le.Respond? && le.unauthorized && !w.link.isRefreshing {
      StartKeeps(w, u, le.i);
    } else if le.Read? {
      ReadKeeps(w, u, le.promise, le.good);
    } else {
      Link.StepKeepsGuardsOnly(w.link, le);
      QuietKeeps(w, u, Link.Step(w.link, le));
      hide Inv, Link.Guarded, WorldInv;
    }
  }

  lemma ServeKeeps(w: World, u: string, p: nat, now: nat)
    requires WorldInv(w, u) && p in w.calls
    ensures WorldInv(Step(w, u, Serve(p, now)), u)
  {
    ServedSlot(w.db, w.calls[p], u, now);
    var reply := RefreshAccessToken(w.db, Signed(w.calls[p]), now);
    hide Inv, RefreshAccessToken, WorldInv;
    ServedKeeps(w, u, p, reply.db, if reply.result.Ok? then Some(reply.result.value) else None);
  }

  lemma ServedKeeps(w: World, u: string, p: nat, db: Db, answer: Option<SessionTokens>)
    requires WorldInv(w, u) && p in w.calls && Inv(db) && u in db.users
    requires answer.None? ==> db == w.db
    requires answer.Some? && Stored(w, u) == Some(w.calls[p]) ==>
              db.users[u].refreshToken == Some(answer.value.refreshToken)
    requires Stored(w, u) != Some(w.calls[p]) ==> db.users[u].refreshToken == Stored(w, u)
    ensures WorldInv(w.(db := db, calls := w.calls - {p}, answers := w.answers[p := answer]), u)
  {
    if p in w.link.running {
      ServedInFlight(w, u, p, db, answer);
    } else {
      ServedLate(w, u, p, db, answer);
    }
    hide WorldInv, Inv, Stored;
  }

  lemma ServedInFlight(w: World, u: string, p: nat, db: Db, answer: Option<SessionTokens>)
    requires WorldInv(w, u) && p in w.calls && Inv(db) && u in db.users && p in w.link.running
    requires answer.None? ==> db == w.db
    requires answer.Some? && Stored(w, u) == Some(w.calls[p]) ==>
              db.users[u].refreshToken == Some(answer.value.refreshToken)
    requires Stored(w, u) != Some(w.calls[p]) ==> db.users[u].refreshToken == Stored(w, u)
    ensures WorldInv(w.(db := db, calls := w.calls - {p}, answers := w.answers[p := answer]), u)
  {
    assert forall q :: q in w.link.running ==> q == p;
    assert Tracked(w, u, p);
    hide Inv, Link.Guarded;
    assert Tracked(w.(db := db, calls := w.calls - {p}, answers := w.answers[p := answer]), u, p);
  }

  /** The client has given this refresh up, and its session with it. */
  lemma ServedLate(w: World, u: string, p: nat, db: Db, answer: Option<SessionTokens>)
    requires WorldInv(w, u) && p in w.calls && Inv(db) && u in db.users && p !in w.link.running
    ensures WorldInv(w.(db := db, calls := w.calls - {p}, answers := w.answers[p := answer]), u)
  {
    assert w.link.running == map[] && w.link.store.refreshToken.None?;
    hide Inv, Link.Guarded;
  }

  /** What the server's handling of a refresh call means for a user's stored token. */
  lemma ServedSlot(db: Db, t: Token, u: string, now: nat)
    requires Inv(db) && u in db.users
    ensures var reply := RefreshAccessToken(db, Signed(t), now);
            && Inv(reply.db) && u in reply.db.users
            && (reply.result.Fail? ==> reply.db == db)
            && (db.users[u].refreshToken != Some(t) ==> reply.db.users[u].refreshToken == db.users[u].refreshToken)
            && (reply.result.Ok? && db.users[u].refreshToken == Some(t) ==>
                  reply.db.users[u].refreshToken == Some(reply.result.value.refreshToken))
  {
    var reply := RefreshAccessToken(db, Signed(t), now);
    if reply.result.Ok? {
      RedeemedRow(db, t, now);
      AsUnique(db);
      IssueMoves(db, t.userId, now);
      IssueIsOneWrite(db, t.userId, now);
      hide IssueTokens;
      AccountMovesKeepInv(db, reply.db, now);
      if db.users[u].refreshToken.Some? {
        OwnerOf(db, u);
      }
      hide Inv, RefreshAccessToken;
    } else {
      FailedRefresh(db, t, now);
    }
  }

  lemma OwnerOf(db: Db, u: string)
    requires Inv(db) && u in db.users && db.users[u].refreshToken.Some?
    ensures db.users[u].refreshToken.value.userId == u
  {
    assert OwnTokens(u, db.users[u]);
  }

  lemma ReceiveKeeps(w: World, u: string, p: nat, lost: bool)
    requires WorldInv(w, u) && Enabled(w, u, if lost then Lose(p) else Receive(p))
    ensures WorldInv(Step(w, u, if lost then Lose(p) else Receive(p)), u)
  {
    var answer, answers := if lost then None else w.answers[p], if lost then w.answers else w.answers - {p};
    var link := Link.Step(w.link, Link.Answer(p, answer));
    LinkAnswered(w.link, p, answer);
    hide Inv, Link.Guarded, Link.Step, Tracked, WorldInv;
    if answer.Some? {
      AnsweredKeeps(w, u, p, link);
    } else {
      ClearKeeps(w, u, link, answers);
    }
  }

  lemma LinkAnswered(s: Link.State, p: nat, answer: Option<SessionTokens>)
    requires Link.Guarded(s) && Link.Enabled(s, Link.Answer(p, answer))
    ensures s.running == map[p := s.running[p]]
    ensures var s' := Link.Step(s, Link.Answer(p, answer));
            && Link.Guarded(s')
            && if answer.Some? then s' == s.(running := map[p := Link.Reading(answer.value)])
               else s'.running == map[] && s'.store == Link.CLEARED && s'.promises == s.promises
  {
    Link.StepKeepsGuardsOnly(s, Link.Answer(p, answer));
    assert s.running == map[p := s.running[p]];
  }

  /** The answer's tokens are the ones that the server stored. */
  lemma AnsweredKeeps(w: World, u: string, p: nat, link: Link.State)
    requires WorldInv(w, u) && Link.Guarded(link) && p in w.link.running && w.link.running[p].Fetching?
    requires p in w.answers && w.answers[p].Some? && w.link.running == map[p := w.link.running[p]]
    requires link == w.link.(running := map[p := Link.Reading(w.answers[p].value)])
    ensures WorldInv(w.(link := link, answers := w.answers - {p}), u)
  {
    assert Tracked(w, u, p);
    hide Inv, Link.Guarded;
  }

  lemma ElsewhereKeepsSession(db: Db, c: Call, u: string)
    requires Inv(db) && u in db.users && Allowed(db, c) && !IssuesTo(db, c, u)
    ensures u in System.Step(db, c).users
    ensures SameToken(db.users[u].refreshToken, System.Step(db, c).users[u].refreshToken, EndsSession(c, u))
  {
    if c.action.Webhook? {
      WebhookKeepsSessions(db, BillingService.Delivery(c.action.event, c.now, c.freshId, c.action.row), u);
    } else {
      OtherCallsKeepSession(db, c, u);
      hide System.Step;
    }
    hide Inv, IssuesTo, EndsSession, BillingService.Delivered;
  }

  lemma SameSlotKeeps(w: World, u: string, db: Db, ends: bool)
    requires WorldInv(w, u) && Inv(db) && u in db.users
    requires SameToken(w.db.users[u].refreshToken, db.users[u].refreshToken, ends)
    ensures WorldInv(w.(db := db, ended := w.ended || ends), u)
  {
    hide Inv, Link.Guarded;
    assert forall p :: p in w.link.running ==> Tracked(w, u, p);
  }

  lemma StepKeeps(w: World, u: string, e: Event)
    requires WorldInv(w, u) && Enabled(w, u, e)
    ensures WorldInv(Step(w, u, e), u)
  {
    match e
    case Local(le) =>
      hide Step, WorldInv;
      LocalKeeps(w, u, le);
    case Serve(p, now) =>
      hide Step, WorldInv;
      ServeKeeps(w, u, p, now);
    case Receive(p) =>
      hide Step, WorldInv;
      ReceiveKeeps(w, u, p, false);
    case Lose(p) =>
      hide Step, WorldInv;
      ReceiveKeeps(w, u, p, true);
    case Elsewhere(c) =>
      StepKeepsInv(w.db, c);
      ElsewhereKeepsSession(w.db, c, u);
      hide Inv, IssuesTo, EndsSession, System.Step, Link.Guarded, Allowed, Moves, WorldInv;
      SameSlotKeeps(w, u, System.Step(w.db, c), EndsSession(c, u));
  }

  lemma {:induction false} RunKeeps(w: World, u: string, events: seq<Event>, w': World)
    requires WorldInv(w, u) && Run(w, u, events, w')
    ensures WorldInv(w', u)
    decreases |events|
  {
    if events == [] {
    } else {
      StepKeeps(w, u, events[0]);
      hide Step, Enabled, WorldInv;
      RunKeeps(Step(w, u, events[0]), u, events[1..], w');
    }
  }

  lemma {:induction false} EndedByCall(w: World, u: string, events: seq<Event>, w': World)
    requires Run(w, u, events, w')
    ensures w'.ended ==> w.ended || exists e :: e in events && e.Elsewhere? && EndsSession(e.call, u)
    decreases |events|
  {
    if events == [] {
    } else {
      var next := Step(w, u, events[0]);
      assert next.ended ==> w.ended || (events[0].Elsewhere? && EndsSession(events[0].call, u));
      hide Step, Enabled, EndsSession;
      EndedByCall(next, u, events[1..], w');
    }
  }

  /** From a page whose stored token is absent or the server's, however requests, refreshes, answers, losses and the
      server's other work interleave, the client's token is always absent, or the server's, or a refresh is in flight;
      once a call has ended the user's session, it may also be that the server has no token left. */
  lemma {:induction false} ClientAgreesWithServer(store: Link.Store, n: nat, db: Db, u: string, events: seq<Event>,
                                                  w: World)
    requires Inv(db) && u in db.users
    requires store.refreshToken.None? || store.refreshToken == db.users[u].refreshToken
    requires Run(World(Link.Fresh(store, n), db, map[], map[], false), u, events, w)
    ensures u in w.db.users && (Agree(w, u) || (w.ended && Stored(w, u).None?))
    ensures (forall e :: e in events && e.Elsewhere? ==> !EndsSession(e.call, u)) ==> Agree(w, u)
  {
    RunKeeps(World(Link.Fresh(store, n), db, map[], map[], false), u, events, w);
    EndedByCall(World(Link.Fresh(store, n), db, map[], map[], false), u, events, w);
    hide Inv;
  }

  // ------------------------------------------------------------- the link does not log its user out

  /** What must not happen for the session to go on: a lost or unreadable answer to a refresh, a call that ends the
      session, a refresh token that expires before the server gets to it, and a downgrade without a free tier. */
  ghost predicate Smooth(w: World, u: string, e: Event)
    requires Enabled(w, u, e)
  {
    match e
    case Local(le) => le.Read? ==> le.good
    case Serve(p, now) => Live(w.calls[p], now) && !Stuck(w.db, u, now)
    case Receive(_) => true
    case Lose(_) => false
    case Elsewhere(c) => !EndsSession(c, u)
  }

  ghost predicate SmoothRun(w: World, u: string, events: seq<Event>)
    decreases |events|
  {
    events != [] ==>
      && Enabled(w, u, events[0]) && Smooth(w, u, events[0]) && SmoothRun(Step(w, u, events[0]), u, events[1..])
  }

  /** The client has a token, and no refresh in flight was refused. */
  ghost predicate LoggedIn(w: World) {
    && !w.ended && w.link.store.refreshToken.Some?
    && (forall p :: p in w.link.running && w.link.running[p].Fetching? && p in w.answers ==> w.answers[p].Some?)
  }

  /** The server grants the refresh of a client that is logged in exactly when the token is live and the user not
      stuck. */
  lemma RefreshGranted(w: World, u: string, p: nat, now: nat)
    requires WorldInv(w, u) && LoggedIn(w) && p in w.calls
    ensures p in w.link.running && w.link.running[p].Fetching?
    ensures RefreshAccessToken(w.db, Signed(w.calls[p]), now).result.Ok? <==>
              Live(w.calls[p], now) && !Stuck(w.db, u, now)
  {
    var t := w.calls[p];
    assert p in w.link.running && Tracked(w, u, p);
    assert Stored(w, u) == Some(t);
    OwnerOf(w.db, u);
    StuckIs(w.db, u, now);
    if Live(t, now) {
      RefreshesWhenStored(w.db, t, now);
    }
    hide Inv, RefreshAccessToken, Link.Guarded, HasExpiredSubscription, Stuck;
  }

  lemma LocalStaysLoggedIn(w: World, u: string, le: Link.Event)
    requires WorldInv(w, u) && LoggedIn(w) && Enabled(w, u, Local(le))
    ensures LoggedIn(Step(w, u, Local(le))) <==> (le.Read? ==> le.good)
  {
    hide Inv, Tracked, Holds, Stuck, Live;
    assert forall p :: p in w.answers ==> p < w.link.promises;
  }

  /** A step keeps its user logged in, with no refusal on its way, exactly when it is smooth. */
  lemma StaysLoggedInExactly(w: World, u: string, e: Event)
    requires WorldInv(w, u) && LoggedIn(w) && Enabled(w, u, e)
    ensures LoggedIn(Step(w, u, e)) <==> Smooth(w, u, e)
  {
    hide WorldInv, Inv, System.Step, IssuesTo, EndsSession, Allowed, RefreshAccessToken, Stuck, Tracked;
    match e
    case Local(le) => LocalStaysLoggedIn(w, u, le);
    case Serve(p, now) => RefreshGranted(w, u, p, now);
    case _ =>
  }

  /** The link never logs its user out by itself: from a page with the server's token on, however requests, refreshes
      and the server's other work interleave, as long as every step is smooth the client keeps a token. */
  lemma {:induction false} NeverLogsOut(w: World, u: string, events: seq<Event>, w': World)
    requires WorldInv(w, u) && LoggedIn(w) && SmoothRun(w, u, events) && Run(w, u, events, w')
    ensures WorldInv(w', u) && LoggedIn(w')
    decreases |events|
  {
    if events == [] {
    } else {
      StepKeeps(w, u, events[0]);
      StaysLoggedInExactly(w, u, events[0]);
      hide Step, Enabled, WorldInv, LoggedIn, Smooth;
      NeverLogsOut(Step(w, u, events[0]), u, events[1..], w');
    }
  }

  /** The same from an agreeing page: in the end the client has a token, the server's one unless a refresh is in
      flight. */
  lemma {:induction false} SessionGoesOn(store: Link.Store, n: nat, db: Db, u: string, events: seq<Event>, w: World)
    requires Inv(db) && u in db.users
    requires store.refreshToken.Some? && store.refreshToken == db.users[u].refreshToken
    requires SmoothRun(World(Link.Fresh(store, n), db, map[], map[], false), u, events)
    requires Run(World(Link.Fresh(store, n), db, map[], map[], false), u, events, w)
    ensures w.link.store.refreshToken.Some? && u in w.db.users
    ensures w.link.running == map[] ==> w.link.store.refreshToken == Stored(w, u)
  {
    NeverLogsOut(World(Link.Fresh(store, n), db, map[], map[], false), u, events, w);
    hide Inv;
  }
}

/** What becomes of each request and each refresh of the link: who starts a refresh, what a settled refresh leaves
    behind, and that a request whose refresh succeeded is sent again. */
module LinkOutcomes {
  import opened Common
  import opened Tokens
  import opened AuthService
  import opened Link

  // ------------------------------------------------------------- single steps

  /** A request is sent once to begin with; a network failure, or the answer to its second sending, ends it. */
  lemma SentOrEnded(s: State, i: nat)
    requires i < |s.requests|
    ensures s.requests[i].Unsent? ==> Step(s, Send(i)) == s.(requests := s.requests[i := Sent], sends := s.sends + 1)
    ensures s.requests[i].Sent? || s.requests[i].Resent? ==>
              Step(s, Break(i)) == s.(requests := s.requests[i := Finished])
    ensures s.requests[i].Resent? ==> Step(s, RespondAgain(i)) == s.(requests := s.requests[i := Finished])
  {
  }

  /** A first answer other than 401, or any that arrives while a refresh runs, ends the request and does nothing
      else. */
  lemma AnsweredForGood(s: State, i: nat, unauthorized: bool)
    requires Enabled(s, Respond(i, unauthorized)) && (unauthorized ==> s.isRefreshing)
    ensures Step(s, Respond(i, unauthorized)) == s.(requests := s.requests[i := Finished])
  {
  }

  /** A 401 while no refresh runs starts one with the stored refresh token, and the request waits for it; without a
      stored token the refresh has failed at once, and nothing is stored any more. */
  lemma StartsRefresh(s: State, i: nat)
    requires Guarded(s) && Enabled(s, Respond(i, true)) && !s.isRefreshing
    ensures var s', p := Step(s, Respond(i, true)), s.promises;
            && s'.requests == s.requests[i := Waiting(p)] && s'.sends == s.sends && s'.refreshes == s.refreshes + 1
            && p !in s.running && p !in s.settled
            && match s.store.refreshToken
               case Some(t) =>
                 && s'.isRefreshing && s'.refreshPromise == Some(p) && s'.running == map[p := Fetching(t)]
                 && s'.store == s.store && s'.settled == s.settled
               case None =>
                 && !s'.isRefreshing && s'.running == map[] && s'.store == Store(None, None, None)
                 && s'.settled == s.settled[p := false]
  {
    assert s.running == map[];
  }

  /** An answer with tokens is read next; a refusal or a loss ends the refresh, with nothing stored any more. */
  lemma RefreshAnswered(s: State, p: nat, tokens: Option<SessionTokens>)
    requires Guarded(s) && Enabled(s, Answer(p, tokens))
    ensures var s' := Step(s, Answer(p, tokens));
            && s'.requests == s.requests && s'.sends == s.sends && s'.refreshes == s.refreshes
            && match tokens
               case Some(t) => s' == s.(running := map[p := Reading(t)])
               case None =>
                 && !s'.isRefreshing && s'.running == map[] && s'.store == Store(None, None, None)
                 && s'.settled == s.settled[p := false]
  {
    assert forall q :: q in s.running ==> q == p;
  }

  /** A readable answer puts both its tokens into the store and keeps the profile; an unreadable one empties the store.
      Either way the refresh is over. */
  lemma RefreshRead(s: State, p: nat, good: bool)
    requires Guarded(s) && Enabled(s, Read(p, good))
    ensures var s', t := Step(s, Read(p, good)), s.running[p].tokens;
            && s'.requests == s.requests && s'.sends == s.sends && s'.refreshes == s.refreshes
            && !s'.isRefreshing && s'.refreshPromise == None && s'.running == map[]
                && s'.settled == s.settled[p := good]
            && s'.store == if good then Store(Some(t.accessToken), Some(t.refreshToken), s.store.user)
                           else Store(None, None, None)
  {
    assert forall q :: q in s.running ==> q == p;
  }

  /** A waiting request whose refresh has settled is sent again exactly when the refresh succeeded. */
  lemma ResumedExactly(s: State, i: nat)
    requires Enabled(s, Resume(i))
    ensures var p := s.requests[i].promise;
            Step(s, Resume(i)) == if s.settled[p] then s.(requests := s.requests[i := Resent], sends := s.sends + 1)
                                  else s.(requests := s.requests[i := Finished])
  {
  }

  // ------------------------------------------------------------- runs

  /** The refresh `p` ends in these events. */
  ghost predicate Ends(events: seq<Event>, p: nat) {
    Read(p, true) in events || Read(p, false) in events || Answer(p, None) in events
  }

  /** The request waits for a promise that exists. */
  ghost predicate WaitsFor(s: State, i: nat, p: nat) {
    i < |s.requests| && s.requests[i] == Waiting(p) && (p in s.running || p in s.settled)
  }

  lemma WaitStep(s: State, e: Event, i: nat, p: nat)
    requires Guarded(s) && WaitsFor(s, i, p) && Enabled(s, e) && e != Resume(i)
    ensures WaitsFor(Step(s, e), i, p)
    ensures p in s.settled ==>
              && p in Step(s, e).settled && Step(s, e).settled[p] == s.settled[p]
              && (e.Read? || e.Answer? ==> e.promise != p)
    ensures p in s.running ==>
              && (p in Step(s, e).settled <==> e == Read(p, true) || e == Read(p, false) || e == Answer(p, None))
              && (p in Step(s, e).settled ==> (Step(s, e).settled[p] <==> e == Read(p, true)))
  {
  }

  lemma {:induction false} WaitRun(s: State, events: seq<Event>, s': State, i: nat, p: nat)
    requires Guarded(s) && WaitsFor(s, i, p) && Run(s, events, s') && Resume(i) !in events
    ensures WaitsFor(s', i, p)
    ensures p in s.settled ==> p in s'.settled && s'.settled[p] == s.settled[p] && !Ends(events, p)
    ensures p in s.running ==>
              && (p in s'.settled <==> Ends(events, p))
              && (p in s'.settled ==> (s'.settled[p] <==> Read(p, true) in events))
    decreases |events|
  {
    if events == [] {
      assert p in s.running ==> p !in s.settled;
    } else {
      var e := events[0];
      WaitStep(s, e, i, p);
      StepKeepsGuardsOnly(s, e);
      assert p in Step(s, e).running ==> p !in Step(s, e).settled;
      assert forall e' :: e' in events <==> e' == e || e' in events[1..];
      hide Step, Enabled, Guarded;
      WaitRun(Step(s, e), events[1..], s', i, p);
    }
  }

  /** A request that was answered 401 while no refresh ran and a token was stored waits for its own refresh, whatever
      else interleaves, and can go on once that refresh has ended: it is sent again if the new tokens were read, and is
      over with its 401 otherwise. */
  lemma RetriedAfterRefresh(s: State, i: nat, events: seq<Event>, s': State)
    requires Guarded(s) && Enabled(s, Respond(i, true)) && !s.isRefreshing && s.store.refreshToken.Some?
    requires Run(Step(s, Respond(i, true)), events, s') && Resume(i) !in events
    ensures var p := s.promises;
            && (Enabled(s', Resume(i)) <==> Ends(events, p))
            && (Read(p, true) in events ==>
                  Step(s', Resume(i)) == s'.(requests := s'.requests[i := Resent], sends := s'.sends + 1))
            && (Ends(events, p) && Read(p, true) !in events ==>
                  Step(s', Resume(i)) == s'.(requests := s'.requests[i := Finished]))
  {
    var s1 := Step(s, Respond(i, true));
    StartsRefresh(s, i);
    StepKeepsGuardsOnly(s, Respond(i, true));
    assert s.promises in s1.running && s.promises !in s1.settled;
    hide Guarded;
    WaitRun(s1, events, s', i, s.promises);
    hide Run;
    if Ends(events, s.promises) {
      ResumedExactly(s', i);
    }
  }
}

/** Changing the email address with a six-digit code (back-end/src/services/email.service.ts). */
module EmailService {
  import opened Common
  import opened Tokens
  import opened Rows
  import opened AuthService

  const MAX_VERIFICATION_ATTEMPTS: nat := 5

  function Max(a: int, b: int): int { if a >= b then a else b }

  function AttemptsRemaining(t: Token): int
    requires t.claims.EmailChange?
  {
    MAX_VERIFICATION_ATTEMPTS - (t.claims.attempts + 1)
  }

  /** The token that a wrong code leaves behind: one more attempt, and an expiry counted anew from the old `iat`. */
  function Reissue(t: Token, now: nat): Token
    requires t.claims.EmailChange?
  {
    var secondsRemaining := if t.exp != 0 then Max(t.exp - Seconds(now), 1) else CHANGE_SECONDS;
    Sign(t.userId, t.claims.(attempts := t.claims.attempts + 1), t.iat, secondsRemaining)
  }

  /** Why a code is not checked at all. */
  function Refusal(slot: Option<Token>, now: nat): Option<Error> {
    if slot.None? then Some(BadRequest)
    else if !Live(slot.value, now) then Some(Unauthorized)
    else if !slot.value.claims.EmailChange? then Some(BadRequest)
    else if slot.value.claims.code == "" || slot.value.claims.newEmail == "" then Some(BadRequest)
    else if slot.value.claims.attempts >= MAX_VERIFICATION_ATTEMPTS then Some(BadRequest)
    else None
  }

  /** The checker: nothing for the right code, the reissued token to store for a wrong one. */
  function VerifyEmailChangeCode(t: Token, code: string, now: nat): Option<Token>
    requires t.claims.EmailChange?
  {
    if t.claims.code == code then None else Some(Reissue(t, now))
  }

  /** How the checker ends: in silence, with the rejection that reports the attempts left, or with another error. */
  datatype Check = Accepted | Rejected(attemptsRemaining: int) | Failed(error: Error)

  ghost function RequestEmailChange(db: Db, userId: string, newEmail: string, code: string, sent: bool,
                                    now: nat): Reply<()> {
    if userId !in db.users then Reply(db, Fail(NotFound))
    else if db.users[userId].email == newEmail then Reply(db, Fail(BadRequest))
    else if UserBy(db, HasEmail(newEmail)).Some? then Reply(db, Fail(Conflict))
    else
      var token := Sign(userId, EmailChange(code, newEmail, 0), Seconds(now), CHANGE_SECONDS);
      var stored := Finally(db, userId, UserPatch(emailVerificationToken := Set(Some(token))), now, ());
      if stored.result.Ok? && !sent then Reply(stored.db, Fail(Internal)) else stored
  }

  /** The checker is started and not awaited: its write and the caller's come in either order, and the
      checker's unhandled rejection may end the process before the caller's write. */
  datatype Order = CheckerFirst | CallerFirst | CheckerOnly

  ghost function StoreChecked(db: Db, userId: string, checked: Option<Token>, now: nat): Db {
    if checked.None? then db
    else Finally(db, userId, UserPatch(emailVerificationToken := Set(checked)), now, ()).db
  }

  ghost function ChangeEmail(db: Db, userId: string, newEmail: string, now: nat): Reply<()> {
    var existing := UserBy(db, HasEmail(newEmail));
    if existing.Some? && existing.value != userId then Reply(db, Fail(Conflict))
    else Finally(db, userId,
                 UserPatch(googleId := Set(None), email := Set(newEmail), emailVerificationToken := Set(None),
                                       emailVerified := Set(true)), now, ())
  }

  ghost function VerifyEmailChange(db: Db, userId: string, code: string, order: Order, now: nat): Reply<()> {
    if userId !in db.users then Reply(db, Fail(BadRequest))
    else
      var slot := db.users[userId].emailVerificationToken;
      var refusal := Refusal(slot, now);
      if refusal.Some? then Reply(db, Fail(refusal.value))
      else
        var checked := VerifyEmailChangeCode(slot.value, code, now);
        var newEmail := slot.value.claims.newEmail;
        match order
        case CheckerFirst => ChangeEmail(StoreChecked(db, userId, checked, now), userId, newEmail, now)
        case CallerFirst =>
          var changed := ChangeEmail(db, userId, newEmail, now);
          Reply(StoreChecked(changed.db, userId, checked, now), changed.result)
        case CheckerOnly =>
          if checked.None? then ChangeEmail(db, userId, newEmail, now)
          else Reply(StoreChecked(db, userId, checked, now), Fail(Internal))
  }

  // ------------------------------------------------------------- the chain of reissued tokens

  /** A pending change that a code may still confirm. */
  predicate IsOpen(slot: Option<Token>, now: nat) {
    && slot.Some? && now / 1000 < slot.value.exp && slot.value.claims.EmailChange?
    && slot.value.claims.code != "" && slot.value.claims.newEmail != "" && slot.value.claims.attempts < 5
  }

  /** Codes are checked exactly while the change is open; else the refusal says whether it has expired. */
  lemma OpenExactly(slot: Option<Token>, now: nat)
    ensures Refusal(slot, now).None? <==> IsOpen(slot, now)
    ensures Refusal(slot, now).Some? ==>
              Refusal(slot, now).value == if slot.Some? && slot.value.exp <= now / 1000 then Unauthorized
                  else BadRequest
  {
  }

  /** One code tried against a pending change, as far as the token goes. */
  function Try(t: Token, code: string, now: nat): Token
    requires t.claims.EmailChange?
    ensures Try(t, code, now).claims.EmailChange?
  {
    if Refusal(Some(t), now).Some? then t
    else
      var checked := VerifyEmailChangeCode(t, code, now);
      if checked.None? then t else checked.value
  }

  datatype Attempt = Attempt(code: string, now: nat)

  function TryAll(t: Token, tries: seq<Attempt>): Token
    requires t.claims.EmailChange?
    decreases |tries|
  {
    if tries == [] then t else TryAll(Try(t, tries[0].code, tries[0].now), tries[1..])
  }

  /** The wrong codes that reach the checker, and the seconds that had passed since `iat` at each, added up. */
  function Wrongs(t: Token, tries: seq<Attempt>): (r: (nat, int))
    requires t.claims.EmailChange?
    decreases |tries|
  {
    if tries == [] then (0, 0)
    else
      var t' := Try(t, tries[0].code, tries[0].now);
      var rest := Wrongs(t', tries[1..]);
      if IsOpen(Some(t), tries[0].now) && tries[0].code != t.claims.code
      then (rest.0 + 1, rest.1 + tries[0].now / 1000 - t.iat)
      else rest
  }

  /** A token of the chain that a request at `iat` starts. */
  ghost predicate InChain(t: Token) {
    && t.claims.EmailChange?
    && t.claims.attempts <= 5
    && t.exp <= t.iat + 900
  }

  lemma TryKeeps(t: Token, code: string, now: nat)
    requires InChain(t) && Seconds(now) >= t.iat
    ensures var t' := Try(t, code, now);
            && InChain(t') && t'.iat == t.iat && t'.userId == t.userId
            && t'.claims.code == t.claims.code && t'.claims.newEmail == t.claims.newEmail
            && t'.exp <= t.exp
  {
  }

  /** Along any tries after one request, the code, the new address and `iat` stay; the attempts count the wrong codes
      that were checked and never pass 5, so the number of attempts reported as remaining is never negative; the expiry
      never moves later, and is the request's own less the seconds that had passed at each wrong code. */
  lemma {:induction false} EmailChangeChain(t: Token, tries: seq<Attempt>)
    requires InChain(t)
    requires forall i :: 0 <= i < |tries| ==> Seconds(tries[i].now) >= t.iat
    ensures var t' := TryAll(t, tries);
            && InChain(t') && t'.iat == t.iat && t'.userId == t.userId
            && t'.claims.code == t.claims.code && t'.claims.newEmail == t.claims.newEmail
            && t'.claims.attempts == t.claims.attempts + Wrongs(t, tries).0
            && t'.exp == t.exp - Wrongs(t, tries).1 <= t.exp
            && (forall later :: IsOpen(Some(t'), later) ==> AttemptsRemaining(t') == 4 - t'.claims.attempts >= 0)
    decreases |tries|
  {
    if tries == [] {
    } else {
      var t' := Try(t, tries[0].code, tries[0].now);
      TryKeeps(t, tries[0].code, tries[0].now);
      EmailChangeChain(t', tries[1..]);
    }
  }

  /** The same from a request's own token: the attempts are the wrong codes, at most 5, and the 15 minutes only get
      shorter. */
  lemma RequestedChain(userId: string, code: string, newEmail: string, now: nat, tries: seq<Attempt>)
    requires forall i :: 0 <= i < |tries| ==> tries[i].now / 1000 >= now / 1000
    ensures var t := Token(userId, EmailChange(code, newEmail, 0), now / 1000, now / 1000 + 900);
            var t' := TryAll(t, tries);
            && t'.userId == userId && t'.iat == now / 1000
            && t'.claims == EmailChange(code, newEmail, Wrongs(t, tries).0) && Wrongs(t, tries).0 <= 5
            && t'.exp == now / 1000 + 900 - Wrongs(t, tries).1 <= now / 1000 + 900
  {
    EmailChangeChain(Token(userId, EmailChange(code, newEmail, 0), now / 1000, now / 1000 + 900), tries);
  }

  /** A reissued token keeps the expiry of the one it replaces exactly when the code was tried in the second of the
      request. */
  lemma ReissueKeepsExpiryExactly(t: Token, now: nat)
    requires t.claims.EmailChange? && t.iat <= now / 1000 < t.exp
    ensures Reissue(t, now).exp == t.exp <==> now / 1000 == t.iat
  {
  }

  /** After the first wrong code the pending change is still open exactly when less than half of its 15 minutes had
      passed. */
  lemma FirstWrongCodeLeavesHalf(t: Token, now: nat)
    requires t.claims.EmailChange? && t.exp == t.iat + 900 && t.iat <= now / 1000 < t.exp
    ensures now / 1000 < Reissue(t, now).exp <==> now / 1000 - t.iat < 450
  {
  }
}

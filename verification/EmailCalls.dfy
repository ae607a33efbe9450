/** The email-change calls as they run (back-end/src/services/email.service.ts). */
module EmailCalls {
  import opened Common
  import opened Tokens
  import opened Rows
  import opened Database
  import opened AuthService
  import opened EmailService
  import opened System
  import AuthCalls

  method RequestEmailChange(db: Database, userId: string, newEmail: string, code: string, sent: bool, now: nat)
    returns (r: Result<()>)
    requires Inv(db.State())
    modifies db`users
    ensures EmailService.RequestEmailChange(old(db.State()), userId, newEmail, code, sent, now) == Reply(db.State(), r)
    ensures Inv(db.State())
  {
    ghost var before := db.State();
    RequestMoves(before, userId, newEmail, code, sent, now);
    AccountMovesKeepInv(before, EmailService.RequestEmailChange(before, userId, newEmail, code, sent, now).db, now);
    AsKeyed(before);
    hide Inv, AuthService.Finally;
    if userId !in db.users {
      return Fail(NotFound);
    }
    if db.users[userId].email == newEmail {
      return Fail(BadRequest);
    }
    var existing := db.GetUserByEmail(newEmail);
    if existing.Some? {
      return Fail(Conflict);
    }
    var token := Sign(userId, EmailChange(code, newEmail, 0), Seconds(now), CHANGE_SECONDS);
    r := AuthCalls.Finally(db, userId, UserPatch(emailVerificationToken := Set(Some(token))), now);
    if r.Ok? && !sent {
      r := Fail(Internal);
    }
  }

  /** The checker, from its start to its end: a token of another purpose is refused, and a wrong code stores the
      reissued token and is rejected with the number of attempts left, which is not negative for a code that was let
      through. */
  method VerifyEmailChangeCode(db: Database, userId: string, code: string, token: Token, now: nat)
    returns (check: Check)
    modifies db`users
    ensures !token.claims.EmailChange? ==> db.State() == old(db.State()) && check == Check.Failed(BadRequest)
    ensures token.claims.EmailChange? ==>
              db.State() ==
                StoreChecked(old(db.State()), userId, EmailService.VerifyEmailChangeCode(token, code, now), now)
    ensures check.Accepted? <==> token.claims.EmailChange? && code == token.claims.code
    ensures check.Rejected? ==>
              && token.claims.EmailChange?
              && check.attemptsRemaining == 5 - (token.claims.attempts + 1)
    ensures check.Rejected? && IsOpen(Some(token), now) ==> check.attemptsRemaining >= 0
    ensures token.claims.EmailChange? && UniqueUsers(old(db.State())) && userId in old(db.users) ==> !check.Failed?
  {
    if !token.claims.EmailChange? {
      return Check.Failed(BadRequest);
    }
    if token.claims.code == code {
      return Accepted;
    }
    ghost var before := db.State();
    var updates := UserPatch(emailVerificationToken := Set(Some(Reissue(token, now))));
    if UniqueUsers(before) && userId in before.users {
      NoClash(before, userId, PatchUser(before.users[userId], updates, now));
    }
    var r := AuthCalls.Finally(db, userId, updates, now);
    check := if r.Ok? then Rejected(AttemptsRemaining(token)) else Check.Failed(r.error);
  }

  method ChangeEmail(db: Database, userId: string, newEmail: string, now: nat) returns (r: Result<()>)
    requires UniqueUsers(db.State())
    modifies db`users
    ensures EmailService.ChangeEmail(old(db.State()), userId, newEmail, now) == Reply(db.State(), r)
  {
    var existing := db.GetUserByEmail(newEmail);
    if existing.Some? && existing.value != userId {
      return Fail(Conflict);
    }
    r := AuthCalls.Finally(db, userId,
                           UserPatch(googleId := Set(None), email := Set(newEmail), emailVerificationToken := Set(None),
                                                 emailVerified := Set(true)), now);
  }

  /** `order` says how the checker's write, which is not awaited, falls. */
  method VerifyEmailChange(db: Database, userId: string, code: string, order: Order, now: nat) returns (r: Result<()>)
    requires Inv(db.State())
    modifies db`users
    ensures EmailService.VerifyEmailChange(old(db.State()), userId, code, order, now) == Reply(db.State(), r)
    ensures Inv(db.State())
  {
    ghost var before := db.State();
    ChangeMoves(before, userId, code, order, now);
    AccountMovesKeepInv(before, EmailService.VerifyEmailChange(before, userId, code, order, now).db, now);
    AsKeyed(before);
    hide Inv, StoreChecked, EmailService.ChangeEmail;
    if userId !in db.users {
      return Fail(BadRequest);
    }
    var slot := db.users[userId].emailVerificationToken;
    var refusal := Refusal(slot, now);
    if refusal.Some? {
      return Fail(refusal.value);
    }
    var newEmail := slot.value.claims.newEmail;
    if order == CallerFirst || code == slot.value.claims.code {
      r := ChangeEmail(db, userId, newEmail, now);
      var _ := VerifyEmailChangeCode(db, userId, code, slot.value, now);
    } else {
      var _ := VerifyEmailChangeCode(db, userId, code, slot.value, now);
      if order == CheckerOnly {
        return Fail(Internal);
      }
      StoreCheckedIs(before, userId, Some(Reissue(slot.value, now)), now);
      var stored := CheckedUser(before.users[userId], Some(Reissue(slot.value, now)), now);
      NoClash(before, userId, stored);
      PutKeepsUnique(before, userId, stored);
      r := ChangeEmail(db, userId, newEmail, now);
    }
  }
}

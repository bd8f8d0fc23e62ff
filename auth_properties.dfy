/**
 * Properties that relate several authentication actions, or an action and an
 * invariant of the user table.
 */
module AuthProperties {
  import opened Schema
  import opened Auth

  // ---------------------------------------------------------------- facts about the table updates

  /** `getUserByEmail` depends only on the address column. */
  lemma {:induction false} SameEmailsSameLookup(a: seq<User>, b: seq<User>, email: string)
    requires |a| == |b| && forall i :: 0 <= i < |a| ==> a[i].email == b[i].email
    ensures IndexByEmail(a, email) == IndexByEmail(b, email)
  {
    if |a| > 0 && a[0].email != Some(email) {
      SameEmailsSameLookup(a[1..], b[1..], email);
    }
  }

  /** `getUserById` depends only on the key column. */
  lemma {:induction false} SameIdsSameLookup(a: seq<User>, b: seq<User>, id: Id)
    requires |a| == |b| && forall i :: 0 <= i < |a| ==> a[i].id == b[i].id
    ensures IndexById(a, id) == IndexById(b, id)
  {
    if |a| > 0 && a[0].id != id {
      SameIdsSameLookup(a[1..], b[1..], id);
    }
  }

  /** Setting a password never touches addresses, so `getUserByEmail` finds the same row position. */
  lemma SetPasswordKeepsLookup(users: seq<User>, email: string, hash: string, other: string)
    ensures IndexByEmail(SetPasswordWhereEmail(users, email, hash), other) == IndexByEmail(users, other)
  {
    SameEmailsSameLookup(SetPasswordWhereEmail(users, email, hash), users, other);
  }

  /** Setting an address never touches keys, so `getUserById` finds the same row position. */
  lemma SetEmailKeepsIdLookup(users: seq<User>, id: Id, email: string, verified: Option<int>, other: Id)
    ensures IndexById(SetEmailWhereId(users, id, email, verified), other) == IndexById(users, other)
  {
    SameIdsSameLookup(SetEmailWhereId(users, id, email, verified), users, other);
  }

  // ---------------------------------------------------------------- signup

  /** A second self-signup with the same address is refused and changes nothing. */
  lemma SignupTwice(t: Tables, email: string, password: string, name: string, bcrypt: string -> string,
                    newUserId: Id, token: string, expires: int,
                    password2: string, name2: string, bcrypt2: string -> string,
                    newUserId2: Id, token2: string, expires2: int)
    requires !HasEmail(t.users, email)
    ensures var first := SignupStep(t, email, password, name, bcrypt, newUserId, token, expires);
      && first.response == Sent(Mail(VerificationMail, email, token))
      && SignupStep(first.tables, email, password2, name2, bcrypt2, newUserId2, token2, expires2)
         == Step(first.tables, Error(EmailInUse))
  {
    var first := SignupStep(t, email, password, name, bcrypt, newUserId, token, expires);
    assert first.tables.users[|t.users|].email == Some(email);
  }

  /**
   * A freshly signed-up account cannot sign in: logging in sends a new
   * verification mail instead of calling the session library.
   */
  lemma {:induction false} SignupThenLogin(t: Tables, email: string, password: string, name: string,
                                           bcrypt: string -> string, newUserId: Id, token: string, expires: int,
                                           loginPassword: string, signIn: SignInOutcome, token2: string, expires2: int)
    requires !HasEmail(t.users, email) && email != "" && bcrypt(password) != ""
    ensures var signedUp := SignupStep(t, email, password, name, bcrypt, newUserId, token, expires).tables;
      var login := LoginStep(signedUp, email, loginPassword, signIn, token2, expires2);
      && login.response == Sent(Mail(VerificationMail, email, token2))
      && login.tables.sessionCalls == t.sessionCalls
      && token2 in login.tables.verificationTokens
      && login.tables.verificationTokens[token2].email == email
  {
    var u := SignupUser(newUserId, name, email, bcrypt(password));
    UserByEmailAppend(t.users, u, email);
  }

  /** Self-signup keeps addresses unique, and keys unique when the new key is fresh. */
  lemma SignupKeepsUsersUnique(t: Tables, email: string, password: string, name: string, bcrypt: string -> string,
                               newUserId: Id, token: string, expires: int)
    requires EmailsUnique(t.users) && IdsUnique(t.users) && !HasId(t.users, newUserId)
    ensures var users := SignupStep(t, email, password, name, bcrypt, newUserId, token, expires).tables.users;
      EmailsUnique(users) && IdsUnique(users)
  {
    var users := SignupStep(t, email, password, name, bcrypt, newUserId, token, expires).tables.users;
    if !HasEmail(t.users, email) {
      assert forall i :: 0 <= i < |t.users| ==> users[i] == t.users[i];
    }
  }

  // ---------------------------------------------------------------- invitations

  /** An invitation is redeemed at most once: after a redemption the same link is invalid. */
  lemma InviteRedeemedOnce(t: Tables, password: string, username: string, token: string,
                           bcrypt: string -> string, newUserId: Id, verified: Option<int>,
                           password2: string, username2: string, bcrypt2: string -> string, newUserId2: Id,
                           verified2: Option<int>)
    requires SignupByAdminStep(t, password, username, token, bcrypt, newUserId, verified).response == Success(UserCreated)
    ensures var after := SignupByAdminStep(t, password, username, token, bcrypt, newUserId, verified).tables;
      SignupByAdminStep(after, password2, username2, token, bcrypt2, newUserId2, verified2)
      == Step(after, Error(InvalidRegisterToken))
  {
  }

  /**
   * The invitation flow end to end: the admin's invitation can be read back
   * before it expires, and redeeming it creates the account the admin owns.
   */
  lemma {:induction false} InviteRoundTrip(t: Tables, email: string, username: string, adminId: Id,
                                           token: string, expires: int, now: int,
                                           password: string, chosenName: string, bcrypt: string -> string, newUserId: Id,
                                           verified: Option<int>)
    requires !HasEmail(t.users, email) && now <= expires
    ensures var invited := CreateByAdminStep(t, email, username, adminId, token, expires).tables;
      var redeemed := SignupByAdminStep(invited, password, chosenName, token, bcrypt, newUserId, verified);
      var account := UserByEmail(redeemed.tables.users, email);
      && invited.users == t.users
      && RegisterVerificationResult(invited, token, now) == Data(email, username)
      && redeemed.response == Success(UserCreated)
      && token !in redeemed.tables.registerTokens
      && account.Some?
      && account.value.id == newUserId && account.value.name == Some(chosenName)
      && account.value.password == Some(bcrypt(password)) && account.value.createdById == Some(adminId)
  {
    var invite := RegisterToken(email, username, adminId, expires);
    UserByEmailAppend(t.users, InvitedUser(newUserId, chosenName, invite, bcrypt(password), verified), email);
  }

  /** `signupByAdmin` reads no clock: an invitation that `registerVerification` calls expired is still redeemed. */
  lemma ExpiredInviteStillRedeemable(t: Tables, token: string, now: int, password: string, username: string,
                                     bcrypt: string -> string, newUserId: Id, verified: Option<int>)
    requires token in t.registerTokens && t.registerTokens[token].expires < now
    requires !HasEmail(t.users, t.registerTokens[token].email)
    ensures RegisterVerificationResult(t, token, now) == Error(TokenExpired)
    ensures SignupByAdminStep(t, password, username, token, bcrypt, newUserId, verified).response == Success(UserCreated)
  {
  }

  /** Redeeming an invitation keeps addresses unique, and keys unique when the new key is fresh. */
  lemma SignupByAdminKeepsUsersUnique(t: Tables, password: string, username: string, token: string,
                                      bcrypt: string -> string, newUserId: Id, verified: Option<int>)
    requires EmailsUnique(t.users) && IdsUnique(t.users) && !HasId(t.users, newUserId)
    ensures var users := SignupByAdminStep(t, password, username, token, bcrypt, newUserId, verified).tables.users;
      EmailsUnique(users) && IdsUnique(users)
  {
    var users := SignupByAdminStep(t, password, username, token, bcrypt, newUserId, verified).tables.users;
    if token in t.registerTokens && !HasEmail(t.users, t.registerTokens[token].email) {
      assert forall i :: 0 <= i < |t.users| ==> users[i] == t.users[i];
    }
  }

  // ---------------------------------------------------------------- password reset

  /**
   * The reset flow end to end: a reset request for a known address, then
   * `newPassword` with the mailed token before it expires, stores the new
   * hash on the account; the token cannot be used a second time.
   */
  lemma {:induction false} ResetRoundTrip(t: Tables, email: string, token: string, expires: int, now: int,
                                          newPassword: string, bcrypt: string -> string,
                                          password2: string, bcrypt2: string -> string)
    requires HasEmail(t.users, email) && email != "" && token != "" && now <= expires
    ensures var requested := ResetStep(t, email, token, expires);
      var completed := NewPasswordStep(requested.tables, newPassword, true, Some(token), now, bcrypt);
      && requested.response == Sent(Mail(PasswordResetMail, email, token))
      && completed.response == Success(PasswordUpdated)
      && UserByEmail(completed.tables.users, email).Some?
      && UserByEmail(completed.tables.users, email).value.password == Some(bcrypt(newPassword))
      && NewPasswordStep(completed.tables, password2, true, Some(token), now, bcrypt2)
         == Step(completed.tables, Error(InvalidToken))
  {
    var requested := ResetStep(t, email, token, expires);
    var users := NewPasswordStep(requested.tables, newPassword, true, Some(token), now, bcrypt).tables.users;
    SetPasswordKeepsLookup(t.users, email, bcrypt(newPassword), email);
    var k := IndexByEmail(t.users, email).value;
    assert users[k].email == Some(email);
  }

  // ---------------------------------------------------------------- verification flows

  /**
   * With unique keys, confirming an address changes one row only: the account
   * found by the token's address keeps its key, address and every other column,
   * and gets what `updateUserEmail` writes to `emailVerified`; only the token
   * is consumed.
   */
  lemma {:induction false} NewVerificationMarksAccount(t: Tables, token: string, now: int, verified: Option<int>)
    requires IdsUnique(t.users)
    ensures var r := NewVerificationStep(t, token, now, verified);
      r.response == Success(EmailVerified) ==>
        var k := IndexByEmail(t.users, t.verificationTokens[token].email).value;
        && r.tables.users == t.users[k := t.users[k].(emailVerified := verified)]
        && r.tables == t.(users := r.tables.users, verificationTokens := t.verificationTokens - {token})
  {
    var r := NewVerificationStep(t, token, now, verified);
    if r.response == Success(EmailVerified) {
      var email := t.verificationTokens[token].email;
      var k := IndexByEmail(t.users, email).value;
      var u := t.users[k];
      var after := SetEmailWhereId(t.users, u.id, email, verified);
      assert forall i :: 0 <= i < |t.users| && t.users[i].id == u.id ==> i == k;
      assert forall i :: 0 <= i < |t.users| ==> after[i] == t.users[k := u.(emailVerified := verified)][i];
    }
  }

  /**
   * Signup, then the link from the verification mail before it expires, then
   * login: when `updateUserEmail` records a confirmation, the account is no
   * longer unverified and login calls `signIn` instead of mailing again.
   */
  lemma {:induction false} SignupVerifyThenLogin(t: Tables, email: string, password: string, name: string,
                                                 bcrypt: string -> string, newUserId: Id, token: string, expires: int,
                                                 now: int, confirmedAt: int,
                                                 loginPassword: string, signIn: SignInOutcome, token2: string, expires2: int)
    requires !HasEmail(t.users, email) && !HasId(t.users, newUserId) && email != "" && bcrypt(password) != ""
    requires now <= expires
    ensures var signedUp := SignupStep(t, email, password, name, bcrypt, newUserId, token, expires).tables;
      var confirmed := NewVerificationStep(signedUp, token, now, Some(confirmedAt));
      var login := LoginStep(confirmed.tables, email, loginPassword, signIn, token2, expires2);
      && confirmed.response == Success(EmailVerified)
      && login.tables.sessionCalls == t.sessionCalls + [SignIn(email, loginPassword)]
      && login.response == SignInResponse(signIn)
  {
    var u := SignupUser(newUserId, name, email, bcrypt(password));
    UserByEmailAppend(t.users, u, email);
    var signedUp := SignupStep(t, email, password, name, bcrypt, newUserId, token, expires).tables;
    var after := SetEmailWhereId(signedUp.users, newUserId, email, Some(confirmedAt));
    assert forall i :: 0 <= i < |t.users| ==> t.users[i].id != newUserId;
    assert after == t.users + [u.(emailVerified := Some(confirmedAt))];
    UserByEmailAppend(t.users, u.(emailVerified := Some(confirmedAt)), email);
  }

  /** A confirmed email change gives the account the new address, and the link works once. */
  lemma {:induction false} NewEmailVerificationSetsEmail(t: Tables, token: string, now: int, verified: Option<int>,
                                                         later: int, verified2: Option<int>)
    requires NewEmailVerificationStep(t, token, now, verified).response == Success(EmailVerified)
    ensures var r := NewEmailVerificationStep(t, token, now, verified);
      var change := t.newEmailTokens[token];
      && UserById(r.tables.users, change.userId).Some?
      && UserById(r.tables.users, change.userId).value.email == Some(change.email)
      && UserById(r.tables.users, change.userId).value.emailVerified == verified
      && NewEmailVerificationStep(r.tables, token, later, verified2) == Step(r.tables, Error(TokenNotFound))
  {
    var change := t.newEmailTokens[token];
    SetEmailKeepsIdLookup(t.users, change.userId, change.email, verified, change.userId);
  }

  /**
   * `newEmailVerification` does not check that the new address is free: an
   * email-change token issued for an address another account later took
   * leaves two rows with the same address.
   */
  lemma NewEmailVerificationMayDuplicateEmail()
    ensures var users := [User("a", None, Some("a@x.com"), None, None, None),
                          User("b", None, Some("b@x.com"), None, None, None)];
      var t := EmptyTables().(users := users, newEmailTokens := map["t" := NewEmailToken("a", "b@x.com", 10)]);
      var r := NewEmailVerificationStep(t, "t", 0, None);
      && EmailsUnique(t.users) && IdsUnique(t.users)
      && r.response == Success(EmailVerified)
      && !EmailsUnique(r.tables.users)
  {
    var users := [User("a", None, Some("a@x.com"), None, None, None),
                  User("b", None, Some("b@x.com"), None, None, None)];
    var t := EmptyTables().(users := users, newEmailTokens := map["t" := NewEmailToken("a", "b@x.com", 10)]);
    assert t.users[0].id == "a";
    var after := NewEmailVerificationStep(t, "t", 0, None).tables.users;
    assert after[0].email == after[1].email;
  }

  /** Expiry is strict in every flow: a token whose expiry equals now is still accepted. */
  lemma ExpiryIsStrict(t: Tables, token: string, now: int, password: string, bcrypt: string -> string,
                        verified: Option<int>)
    ensures token in t.registerTokens && t.registerTokens[token].expires == now ==>
      RegisterVerificationResult(t, token, now).Data?
    ensures token != "" && token in t.passwordResetTokens && t.passwordResetTokens[token].expires == now ==>
      NewPasswordStep(t, password, true, Some(token), now, bcrypt).response != Error(TokenExpired)
    ensures token in t.verificationTokens && t.verificationTokens[token].expires == now ==>
      NewVerificationStep(t, token, now, verified).response != Error(TokenExpired)
    ensures token in t.newEmailTokens && t.newEmailTokens[token].expires == now ==>
      NewEmailVerificationStep(t, token, now, verified).response != Error(TokenExpired)
  {
  }
}

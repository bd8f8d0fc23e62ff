/**
 * The authentication server actions. Each action is a short pipeline of
 * guards that end in an `{error}`, `{success}` or `{data}` result; the tables
 * change only after every guard has passed.
 *
 * Every action appears twice: a function `...Step` on a snapshot of the
 * tables, whose contract states what the action promises (which message in
 * which state, what is created and what is deleted), and a method on the
 * `Database` object that performs the same steps in place and is proved to
 * leave exactly the snapshot and the response the function gives.
 *
 * Collaborators outside the actions are inputs: `now` for the clock,
 * `bcrypt` for the salted hash of this call, `signIn` for the outcome of the
 * session library, `fieldsValid` for the schema check of `newPassword`, and
 * the random value and expiry a token generator picks.
 */
module Auth {
  import opened Schema
  import opened Store

  /** What an action hands back to its caller. */
  datatype Response =
    | Error(error: string)
    | Success(success: string)
    | Data(email: string, username: string)
    | Sent(mail: Mail)      // whatever the mail sender returns for this message
    | Undefined             // `login` falls off its end after a sign-in that did not throw
    | Rethrown              // `login` rethrows an error that is not an `AuthError`

  /** The outcome of `signIn("credentials", ...)`. */
  datatype SignInOutcome = Ok | CredentialsSignin | OtherAuthError | NonAuthError

  datatype Step = Step(tables: Tables, response: Response)

  const EmailNotFound := "Email does not exist"
  const EmailNotFoundBang := "Email does not exist!"
  const EmailInUse := "Email already in use!"
  const InvalidRegisterToken := "Invalid token, please use the link sent to your email to open. "
  const TokenExpired := "Token has expired!"
  const MissingToken := "Missing token!"
  const InvalidFields := "Invalid fields!"
  const InvalidToken := "Invalid token"
  const TokenNotFound := "Token does not exist!"
  const InvalidCredentials := "Invalid credentials"
  const AuthErrorOccurred := "An error occurred"
  const UserCreated := "User created!"
  const PasswordUpdated := "Password updated!"
  const EmailVerified := "Email verified!"

  /** The guard of `login`: the row found for `email` has a non-empty password and address. */
  predicate PasswordAccount(users: seq<User>, email: string) {
    match UserByEmail(users, email)
    case None => false
    case Some(u) => Truthy(u.password) && Truthy(u.email)
  }

  /** A password account whose address has not been confirmed yet. */
  predicate Unverified(users: seq<User>, email: string) {
    PasswordAccount(users, email) && UserByEmail(users, email).value.emailVerified.None?
  }

  /** How `login` maps the outcome of a sign-in attempt. */
  function SignInResponse(o: SignInOutcome): (r: Response)
    ensures r == Undefined <==> o == Ok
    ensures r == Error(InvalidCredentials) <==> o == CredentialsSignin
    ensures r == Error(AuthErrorOccurred) <==> o == OtherAuthError
    ensures r == Rethrown <==> o == NonAuthError
  {
    match o
    case Ok => Undefined
    case CredentialsSignin => Error(InvalidCredentials)
    case OtherAuthError => Error(AuthErrorOccurred)
    case NonAuthError => Rethrown
  }

  // ---------------------------------------------------------------- login

  function LoginStep(t: Tables, email: string, password: string, signIn: SignInOutcome,
                     token: string, expires: int): (r: Step)
    ensures r.response == Error(EmailNotFound) <==> !PasswordAccount(t.users, email)
    ensures !HasEmail(t.users, email) ==> r == Step(t, Error(EmailNotFound))
    ensures !PasswordAccount(t.users, email) ==> r.tables == t
    ensures r.tables.users == t.users
    ensures r.response.Sent? <==> Unverified(t.users, email)
    ensures Unverified(t.users, email) ==>
      && r.response.mail == Mail(VerificationMail, email, token)
      && r.tables == t.(verificationTokens := t.verificationTokens[token := VerificationToken(email, expires)],
                        outbox := t.outbox + [r.response.mail])
    ensures r.tables.sessionCalls != t.sessionCalls <==>
      PasswordAccount(t.users, email) && !Unverified(t.users, email)
    ensures PasswordAccount(t.users, email) && !Unverified(t.users, email) ==>
      && r.tables == t.(sessionCalls := t.sessionCalls + [SignIn(email, password)])
      && r.response == SignInResponse(signIn)
  {
    match UserByEmail(t.users, email)
    case None => Step(t, Error(EmailNotFound))
    case Some(u) =>
      if !Truthy(u.password) || !Truthy(u.email) then Step(t, Error(EmailNotFound))
      else if u.emailVerified.None? then
        var mail := Mail(VerificationMail, u.email.value, token);
        Step(t.(verificationTokens := t.verificationTokens[token := VerificationToken(u.email.value, expires)],
                outbox := t.outbox + [mail]),
             Sent(mail))
      else
        Step(t.(sessionCalls := t.sessionCalls + [SignIn(email, password)]), SignInResponse(signIn))
  }

  method Login(db: Database, email: string, password: string, signIn: SignInOutcome,
               token: string, expires: int) returns (r: Response)
    modifies db
    ensures db.Snapshot() == LoginStep(old(db.Snapshot()), email, password, signIn, token, expires).tables
    ensures r == LoginStep(old(db.Snapshot()), email, password, signIn, token, expires).response
  {
    var existingUser := UserByEmail(db.users, email);
    if existingUser.None? || !Truthy(existingUser.value.password) || !Truthy(existingUser.value.email) {
      return Error(EmailNotFound);
    }
    var user := existingUser.value;
    if user.emailVerified.None? {
      db.GenerateVerificationToken(user.email.value, token, expires);
      var mail := Mail(VerificationMail, user.email.value, token);
      db.SendEmail(mail);
      return Sent(mail);
    }
    db.CallSession(SignIn(email, password));
    r := SignInResponse(signIn);
  }

  // ---------------------------------------------------------------- signup

  /** The row `createUser` inserts for a self-signup. */
  function SignupUser(id: Id, name: string, email: string, hash: string): User {
    User(id, Some(name), Some(email), Some(hash), None, None)
  }

  function SignupStep(t: Tables, email: string, password: string, name: string, bcrypt: string -> string,
                      newUserId: Id, token: string, expires: int): (r: Step)
    ensures r.response == Error(EmailInUse) <==> HasEmail(t.users, email)
    ensures HasEmail(t.users, email) ==> r.tables == t
    ensures !HasEmail(t.users, email) ==>
      && r.tables.users == t.users + [SignupUser(newUserId, name, email, bcrypt(password))]
      && r.response == Sent(Mail(VerificationMail, email, token))
      && r.tables == t.(users := r.tables.users,
                        verificationTokens := t.verificationTokens[token := VerificationToken(email, expires)],
                        outbox := t.outbox + [r.response.mail])
  {
    var hashedPassword := bcrypt(password);
    if UserByEmail(t.users, email).Some? then Step(t, Error(EmailInUse))
    else
      var mail := Mail(VerificationMail, email, token);
      Step(t.(users := t.users + [SignupUser(newUserId, name, email, hashedPassword)],
              verificationTokens := t.verificationTokens[token := VerificationToken(email, expires)],
              outbox := t.outbox + [mail]),
           Sent(mail))
  }

  method Signup(db: Database, email: string, password: string, name: string, bcrypt: string -> string,
                newUserId: Id, token: string, expires: int) returns (r: Response)
    modifies db
    ensures db.Snapshot() == SignupStep(old(db.Snapshot()), email, password, name, bcrypt, newUserId, token, expires).tables
    ensures r == SignupStep(old(db.Snapshot()), email, password, name, bcrypt, newUserId, token, expires).response
  {
    var hashedPassword := bcrypt(password);
    var existingUser := UserByEmail(db.users, email);
    if existingUser.Some? {
      return Error(EmailInUse);
    }
    db.InsertUser(SignupUser(newUserId, name, email, hashedPassword));
    db.GenerateVerificationToken(email, token, expires);
    var mail := Mail(VerificationMail, email, token);
    db.SendEmail(mail);
    r := Sent(mail);
  }

  // ---------------------------------------------------------------- signupByAdmin

  /**
   * The row `createUserByAdmin` inserts for a redeemed invitation: the name,
   * address, hash and admin the call passes. Its body is not part of this
   * model, so what it writes to `emailVerified` is the parameter `verified`.
   */
  function InvitedUser(id: Id, username: string, invite: RegisterToken, hash: string, verified: Option<int>): User {
    User(id, Some(username), Some(invite.email), Some(hash), verified, Some(invite.adminId))
  }

  /** Redeems an invitation; there is no clock input because the action never checks expiry. */
  function SignupByAdminStep(t: Tables, password: string, username: string, token: string,
                             bcrypt: string -> string, newUserId: Id, verified: Option<int>): (r: Step)
    ensures r.response == Error(InvalidRegisterToken) <==> token !in t.registerTokens
    ensures r.response == Error(EmailInUse) <==>
      token in t.registerTokens && HasEmail(t.users, t.registerTokens[token].email)
    ensures r.response.Error? ==> r.tables == t
    ensures r.response == Success(UserCreated) <==>
      token in t.registerTokens && !HasEmail(t.users, t.registerTokens[token].email)
    ensures r.response == Success(UserCreated) ==>
      && r.tables.users == t.users + [InvitedUser(newUserId, username, t.registerTokens[token], bcrypt(password), verified)]
      && r.tables.registerTokens == t.registerTokens - {token}
      && r.tables == t.(users := r.tables.users, registerTokens := r.tables.registerTokens)
  {
    var hashedPassword := bcrypt(password);
    if token !in t.registerTokens then Step(t, Error(InvalidRegisterToken))
    else
      var invite := t.registerTokens[token];
      if UserByEmail(t.users, invite.email).Some? then Step(t, Error(EmailInUse))
      else
        Step(t.(users := t.users + [InvitedUser(newUserId, username, invite, hashedPassword, verified)],
                registerTokens := t.registerTokens - {token}),
             Success(UserCreated))
  }

  method SignupByAdmin(db: Database, password: string, username: string, token: string,
                       bcrypt: string -> string, newUserId: Id, verified: Option<int>) returns (r: Response)
    modifies db
    ensures db.Snapshot() == SignupByAdminStep(old(db.Snapshot()), password, username, token, bcrypt, newUserId, verified).tables
    ensures r == SignupByAdminStep(old(db.Snapshot()), password, username, token, bcrypt, newUserId, verified).response
  {
    var hashedPassword := bcrypt(password);
    if token !in db.registerTokens {
      return Error(InvalidRegisterToken);
    }
    var existingToken := db.registerTokens[token];
    var existingUser := UserByEmail(db.users, existingToken.email);
    if existingUser.Some? {
      return Error(EmailInUse);
    }
    db.InsertUser(InvitedUser(newUserId, username, existingToken, hashedPassword, verified));
    db.DeleteRegisterVerificationToken(token);
    r := Success(UserCreated);
  }

  // ---------------------------------------------------------------- createByAdmin

  function CreateByAdminStep(t: Tables, email: string, username: string, adminId: Id,
                             token: string, expires: int): (r: Step)
    ensures r.response == Error(EmailInUse) <==> HasEmail(t.users, email)
    ensures HasEmail(t.users, email) ==> r.tables == t
    ensures r.tables.users == t.users
    ensures !HasEmail(t.users, email) ==>
      && r.response == Sent(Mail(RegisterMail, email, token))
      && r.tables == t.(registerTokens := t.registerTokens[token := RegisterToken(email, username, adminId, expires)],
                        outbox := t.outbox + [r.response.mail])
  {
    if UserByEmail(t.users, email).Some? then Step(t, Error(EmailInUse))
    else
      var mail := Mail(RegisterMail, email, token);
      Step(t.(registerTokens := t.registerTokens[token := RegisterToken(email, username, adminId, expires)],
              outbox := t.outbox + [mail]),
           Sent(mail))
  }

  method CreateByAdmin(db: Database, email: string, username: string, adminId: Id,
                       token: string, expires: int) returns (r: Response)
    modifies db
    ensures db.Snapshot() == CreateByAdminStep(old(db.Snapshot()), email, username, adminId, token, expires).tables
    ensures r == CreateByAdminStep(old(db.Snapshot()), email, username, adminId, token, expires).response
  {
    var existingUser := UserByEmail(db.users, email);
    if existingUser.Some? {
      return Error(EmailInUse);
    }
    db.GenerateRegisterEmailVerificationToken(email, username, adminId, token, expires);
    var mail := Mail(RegisterMail, email, token);
    db.SendEmail(mail);
    r := Sent(mail);
  }

  // ---------------------------------------------------------------- registerVerification

  /** The read-only check of an invitation link. */
  function RegisterVerificationResult(t: Tables, token: string, now: int): (r: Response)
    ensures r == Error(InvalidRegisterToken) <==> token !in t.registerTokens
    ensures r == Error(TokenExpired) <==> token in t.registerTokens && t.registerTokens[token].expires < now
    ensures r.Data? <==> token in t.registerTokens && now <= t.registerTokens[token].expires
    ensures r.Data? ==> r == Data(t.registerTokens[token].email, t.registerTokens[token].name)
  {
    if token !in t.registerTokens then Error(InvalidRegisterToken)
    else
      var invite := t.registerTokens[token];
      if Expired(invite.expires, now) then Error(TokenExpired)
      else Data(invite.email, invite.name)
  }

  method RegisterVerification(db: Database, token: string, now: int) returns (r: Response)
    ensures r == RegisterVerificationResult(db.Snapshot(), token, now)
    ensures r.Data? <==> token in db.registerTokens && now <= db.registerTokens[token].expires
    ensures r.Data? ==> r.email == db.registerTokens[token].email && r.username == db.registerTokens[token].name
  {
    if token !in db.registerTokens {
      return Error(InvalidRegisterToken);
    }
    var existingToken := db.registerTokens[token];
    if Expired(existingToken.expires, now) {
      return Error(TokenExpired);
    }
    r := Data(existingToken.email, existingToken.name);
  }

  // ---------------------------------------------------------------- reset

  function ResetStep(t: Tables, email: string, token: string, expires: int): (r: Step)
    ensures r.response == Error(EmailNotFound) <==> !HasEmail(t.users, email) || email == ""
    ensures r.response.Error? ==> r.tables == t
    ensures r.tables.users == t.users
    ensures HasEmail(t.users, email) && email != "" ==>
      && r.response == Sent(Mail(PasswordResetMail, email, token))
      && r.tables == t.(passwordResetTokens := t.passwordResetTokens[token := PasswordResetToken(email, expires)],
                        outbox := t.outbox + [r.response.mail])
  {
    match UserByEmail(t.users, email)
    case None => Step(t, Error(EmailNotFound))
    case Some(u) =>
      if !Truthy(u.email) then Step(t, Error(EmailNotFound))
      else
        var mail := Mail(PasswordResetMail, email, token);
        Step(t.(passwordResetTokens := t.passwordResetTokens[token := PasswordResetToken(email, expires)],
                outbox := t.outbox + [mail]),
             Sent(mail))
  }

  method Reset(db: Database, email: string, token: string, expires: int) returns (r: Response)
    modifies db
    ensures db.Snapshot() == ResetStep(old(db.Snapshot()), email, token, expires).tables
    ensures r == ResetStep(old(db.Snapshot()), email, token, expires).response
  {
    var existingUser := UserByEmail(db.users, email);
    if existingUser.None? || !Truthy(existingUser.value.email) {
      return Error(EmailNotFound);
    }
    db.GeneratePasswordResetToken(email, token, expires);
    var mail := Mail(PasswordResetMail, email, token);
    db.SendEmail(mail);
    r := Sent(mail);
  }

  // ---------------------------------------------------------------- newPassword

  /** The guards of `newPassword` that come before the user lookup all pass. */
  predicate ResetTokenUsable(t: Tables, fieldsValid: bool, token: Option<string>, now: int) {
    && Truthy(token)
    && fieldsValid
    && token.value in t.passwordResetTokens
    && !Expired(t.passwordResetTokens[token.value].expires, now)
  }

  function NewPasswordStep(t: Tables, password: string, fieldsValid: bool, token: Option<string>, now: int,
                           bcrypt: string -> string): (r: Step)
    ensures r.response == Error(MissingToken) <==> !Truthy(token)
    ensures r.response == Error(InvalidFields) <==> Truthy(token) && !fieldsValid
    ensures r.response == Error(InvalidToken) <==>
      Truthy(token) && fieldsValid && token.value !in t.passwordResetTokens
    ensures r.response == Error(TokenExpired) <==>
      && Truthy(token) && fieldsValid && token.value in t.passwordResetTokens
      && t.passwordResetTokens[token.value].expires < now
    ensures r.response == Error(EmailNotFoundBang) <==>
      ResetTokenUsable(t, fieldsValid, token, now) && !HasEmail(t.users, t.passwordResetTokens[token.value].email)
    ensures r.response.Error? ==> r.tables == t
    ensures r.response == Success(PasswordUpdated) <==>
      ResetTokenUsable(t, fieldsValid, token, now) && HasEmail(t.users, t.passwordResetTokens[token.value].email)
    ensures r.response == Success(PasswordUpdated) ==>
      && r.tables.users == SetPasswordWhereEmail(t.users, t.passwordResetTokens[token.value].email, bcrypt(password))
      && r.tables.passwordResetTokens == t.passwordResetTokens - {token.value}
      && r.tables == t.(users := r.tables.users, passwordResetTokens := r.tables.passwordResetTokens)
  {
    if !Truthy(token) then Step(t, Error(MissingToken))
    else if !fieldsValid then Step(t, Error(InvalidFields))
    else if token.value !in t.passwordResetTokens then Step(t, Error(InvalidToken))
    else
      var resetToken := t.passwordResetTokens[token.value];
      if Expired(resetToken.expires, now) then Step(t, Error(TokenExpired))
      else if UserByEmail(t.users, resetToken.email).None? then Step(t, Error(EmailNotFoundBang))
      else
        Step(t.(users := SetPasswordWhereEmail(t.users, resetToken.email, bcrypt(password)),
                passwordResetTokens := t.passwordResetTokens - {token.value}),
             Success(PasswordUpdated))
  }

  method NewPassword(db: Database, password: string, fieldsValid: bool, token: Option<string>, now: int,
                     bcrypt: string -> string) returns (r: Response)
    modifies db
    ensures db.Snapshot() == NewPasswordStep(old(db.Snapshot()), password, fieldsValid, token, now, bcrypt).tables
    ensures r == NewPasswordStep(old(db.Snapshot()), password, fieldsValid, token, now, bcrypt).response
  {
    if !Truthy(token) {
      return Error(MissingToken);
    }
    if !fieldsValid {
      return Error(InvalidFields);
    }
    if token.value !in db.passwordResetTokens {
      return Error(InvalidToken);
    }
    var existingToken := db.passwordResetTokens[token.value];
    if Expired(existingToken.expires, now) {
      return Error(TokenExpired);
    }
    var existingUser := UserByEmail(db.users, existingToken.email);
    if existingUser.None? {
      return Error(EmailNotFoundBang);
    }
    var hashedPassword := bcrypt(password);
    db.UpdateUserPassword(existingToken.email, hashedPassword);
    db.DeletePasswordResetToken(token.value);
    r := Success(PasswordUpdated);
  }

  // ---------------------------------------------------------------- newVerification

  /** `verified` is what `updateUserEmail` writes to `emailVerified` (see `SetEmailWhereId`). */
  function NewVerificationStep(t: Tables, token: string, now: int, verified: Option<int>): (r: Step)
    ensures r.response == Error(TokenNotFound) <==> token !in t.verificationTokens
    ensures r.response == Error(TokenExpired) <==>
      token in t.verificationTokens && t.verificationTokens[token].expires < now
    ensures r.response == Error(EmailNotFoundBang) <==>
      && token in t.verificationTokens && now <= t.verificationTokens[token].expires
      && !HasEmail(t.users, t.verificationTokens[token].email)
    ensures r.response.Error? ==> r.tables == t
    ensures r.response == Success(EmailVerified) <==>
      && token in t.verificationTokens && now <= t.verificationTokens[token].expires
      && HasEmail(t.users, t.verificationTokens[token].email)
    ensures r.response == Success(EmailVerified) ==>
      var email := t.verificationTokens[token].email;
      && r.tables.users == SetEmailWhereId(t.users, UserByEmail(t.users, email).value.id, email, verified)
      && r.tables.verificationTokens == t.verificationTokens - {token}
      && r.tables == t.(users := r.tables.users, verificationTokens := r.tables.verificationTokens)
  {
    if token !in t.verificationTokens then Step(t, Error(TokenNotFound))
    else
      var verification := t.verificationTokens[token];
      if Expired(verification.expires, now) then Step(t, Error(TokenExpired))
      else
        match UserByEmail(t.users, verification.email)
        case None => Step(t, Error(EmailNotFoundBang))
        case Some(u) =>
          Step(t.(users := SetEmailWhereId(t.users, u.id, verification.email, verified),
                  verificationTokens := t.verificationTokens - {token}),
               Success(EmailVerified))
  }

  method NewVerification(db: Database, token: string, now: int, verified: Option<int>) returns (r: Response)
    modifies db
    ensures db.Snapshot() == NewVerificationStep(old(db.Snapshot()), token, now, verified).tables
    ensures r == NewVerificationStep(old(db.Snapshot()), token, now, verified).response
  {
    if token !in db.verificationTokens {
      return Error(TokenNotFound);
    }
    var existingToken := db.verificationTokens[token];
    if Expired(existingToken.expires, now) {
      return Error(TokenExpired);
    }
    var existingUser := UserByEmail(db.users, existingToken.email);
    if existingUser.None? {
      return Error(EmailNotFoundBang);
    }
    db.UpdateUserEmail(existingUser.value.id, existingToken.email, verified);
    db.DeleteVerificationToken(token);
    r := Success(EmailVerified);
  }

  // ---------------------------------------------------------------- newEmailVerification

  /** `verified` is what `updateUserEmail` writes to `emailVerified` (see `SetEmailWhereId`). */
  function NewEmailVerificationStep(t: Tables, token: string, now: int, verified: Option<int>): (r: Step)
    ensures r.response == Error(TokenNotFound) <==> token !in t.newEmailTokens
    ensures r.response == Error(TokenExpired) <==>
      token in t.newEmailTokens && t.newEmailTokens[token].expires < now
    ensures r.response == Error(EmailNotFoundBang) <==>
      && token in t.newEmailTokens && now <= t.newEmailTokens[token].expires
      && !HasId(t.users, t.newEmailTokens[token].userId)
    ensures r.response.Error? ==> r.tables == t
    ensures r.response == Success(EmailVerified) <==>
      && token in t.newEmailTokens && now <= t.newEmailTokens[token].expires
      && HasId(t.users, t.newEmailTokens[token].userId)
    ensures r.response == Success(EmailVerified) ==>
      && r.tables.users == SetEmailWhereId(t.users, t.newEmailTokens[token].userId, t.newEmailTokens[token].email, verified)
      && r.tables.newEmailTokens == t.newEmailTokens - {token}
      && r.tables == t.(users := r.tables.users, newEmailTokens := r.tables.newEmailTokens)
  {
    if token !in t.newEmailTokens then Step(t, Error(TokenNotFound))
    else
      var change := t.newEmailTokens[token];
      if Expired(change.expires, now) then Step(t, Error(TokenExpired))
      else
        match UserById(t.users, change.userId)
        case None => Step(t, Error(EmailNotFoundBang))
        case Some(u) =>
          Step(t.(users := SetEmailWhereId(t.users, u.id, change.email, verified),
                  newEmailTokens := t.newEmailTokens - {token}),
               Success(EmailVerified))
  }

  method NewEmailVerification(db: Database, token: string, now: int, verified: Option<int>) returns (r: Response)
    modifies db
    ensures db.Snapshot() == NewEmailVerificationStep(old(db.Snapshot()), token, now, verified).tables
    ensures r == NewEmailVerificationStep(old(db.Snapshot()), token, now, verified).response
  {
    if token !in db.newEmailTokens {
      return Error(TokenNotFound);
    }
    var existingToken := db.newEmailTokens[token];
    if Expired(existingToken.expires, now) {
      return Error(TokenExpired);
    }
    var existingUser := UserById(db.users, existingToken.userId);
    if existingUser.None? {
      return Error(EmailNotFoundBang);
    }
    db.UpdateUserEmail(existingUser.value.id, existingToken.email, verified);
    db.DeleteNewEmailVerificationToken(token);
    r := Success(EmailVerified);
  }

  // ---------------------------------------------------------------- logout

  /** Ends the session; the cache revalidation that follows is outside the model. */
  method Logout(db: Database)
    modifies db
    ensures db.Snapshot() == old(db.Snapshot()).(sessionCalls := old(db.sessionCalls) + [SignOut])
  {
    db.CallSession(SignOut);
  }
}

/**
 * The shared database the server actions and the seed script work on, as an
 * object whose tables are updated in place, with one method per data-access
 * call the actions make. `Snapshot()` gives the value of every table at once;
 * each method states its new snapshot in terms of the old one.
 */
module Store {
  import opened Schema

  class Database {
    var users: seq<User>
    var verificationTokens: map<string, VerificationToken>
    var passwordResetTokens: map<string, PasswordResetToken>
    var registerTokens: map<string, RegisterToken>
    var newEmailTokens: map<string, NewEmailToken>
    var roles: seq<Role>
    var menus: seq<Menu>
    var outbox: seq<Mail>
    var sessionCalls: seq<SessionCall>

    function Snapshot(): Tables
      reads this
    {
      Tables(users, verificationTokens, passwordResetTokens, registerTokens, newEmailTokens,
             roles, menus, outbox, sessionCalls)
    }

    constructor ()
      ensures Snapshot() == EmptyTables()
    {
      users, roles, menus, outbox, sessionCalls := [], [], [], [], [];
      verificationTokens, passwordResetTokens, registerTokens, newEmailTokens := map[], map[], map[], map[];
    }

    /** Puts every table back as it was in `t` (the rollback of a transaction). */
    method Restore(t: Tables)
      modifies this
      ensures Snapshot() == t
    {
      users, verificationTokens, passwordResetTokens := t.users, t.verificationTokens, t.passwordResetTokens;
      registerTokens, newEmailTokens := t.registerTokens, t.newEmailTokens;
      roles, menus, outbox, sessionCalls := t.roles, t.menus, t.outbox, t.sessionCalls;
    }

    /** `insert(user)`: appends one row. */
    method InsertUser(u: User)
      modifies this
      ensures Snapshot() == old(Snapshot()).(users := old(users) + [u])
    {
      users := users + [u];
    }

    method InsertRole(r: Role)
      modifies this
      ensures Snapshot() == old(Snapshot()).(roles := old(roles) + [r])
    {
      roles := roles + [r];
    }

    method InsertMenu(m: Menu)
      modifies this
      ensures Snapshot() == old(Snapshot()).(menus := old(menus) + [m])
    {
      menus := menus + [m];
    }

    /** `updateUserPassword(email, {password})`: every row with that address gets the hash. */
    method UpdateUserPassword(email: string, hash: string)
      modifies this
      ensures Snapshot() == old(Snapshot()).(users := SetPasswordWhereEmail(old(users), email, hash))
    {
      users := SetPasswordWhereEmail(users, email, hash);
    }

    /** `updateUserEmail(id, email)`: the row with that key gets the address, and `verified` as `emailVerified`. */
    method UpdateUserEmail(id: Id, email: string, verified: Option<int>)
      modifies this
      ensures Snapshot() == old(Snapshot()).(users := SetEmailWhereId(old(users), id, email, verified))
    {
      users := SetEmailWhereId(users, id, email, verified);
    }

    /** The token generators: one row bound to the subject is stored under a fresh random value. */
    method GenerateVerificationToken(email: string, value: string, expires: int)
      modifies this
      ensures Snapshot() == old(Snapshot()).(verificationTokens :=
        old(verificationTokens)[value := VerificationToken(email, expires)])
    {
      verificationTokens := verificationTokens[value := VerificationToken(email, expires)];
    }

    method GeneratePasswordResetToken(email: string, value: string, expires: int)
      modifies this
      ensures Snapshot() == old(Snapshot()).(passwordResetTokens :=
        old(passwordResetTokens)[value := PasswordResetToken(email, expires)])
    {
      passwordResetTokens := passwordResetTokens[value := PasswordResetToken(email, expires)];
    }

    method GenerateRegisterEmailVerificationToken(email: string, name: string, adminId: Id, value: string, expires: int)
      modifies this
      ensures Snapshot() == old(Snapshot()).(registerTokens :=
        old(registerTokens)[value := RegisterToken(email, name, adminId, expires)])
    {
      registerTokens := registerTokens[value := RegisterToken(email, name, adminId, expires)];
    }

    method DeleteVerificationToken(value: string)
      modifies this
      ensures Snapshot() == old(Snapshot()).(verificationTokens := old(verificationTokens) - {value})
    {
      verificationTokens := verificationTokens - {value};
    }

    method DeletePasswordResetToken(value: string)
      modifies this
      ensures Snapshot() == old(Snapshot()).(passwordResetTokens := old(passwordResetTokens) - {value})
    {
      passwordResetTokens := passwordResetTokens - {value};
    }

    method DeleteRegisterVerificationToken(value: string)
      modifies this
      ensures Snapshot() == old(Snapshot()).(registerTokens := old(registerTokens) - {value})
    {
      registerTokens := registerTokens - {value};
    }

    method DeleteNewEmailVerificationToken(value: string)
      modifies this
      ensures Snapshot() == old(Snapshot()).(newEmailTokens := old(newEmailTokens) - {value})
    {
      newEmailTokens := newEmailTokens - {value};
    }

    /** The mail senders: the message is recorded as sent. */
    method SendEmail(m: Mail)
      modifies this
      ensures Snapshot() == old(Snapshot()).(outbox := old(outbox) + [m])
    {
      outbox := outbox + [m];
    }

    /** A call into the session library is recorded; its outcome is decided outside the model. */
    method CallSession(c: SessionCall)
      modifies this
      ensures Snapshot() == old(Snapshot()).(sessionCalls := old(sessionCalls) + [c])
    {
      sessionCalls := sessionCalls + [c];
    }
  }
}

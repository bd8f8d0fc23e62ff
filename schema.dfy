/**
 * Rows of the application's tables and the read-only queries the
 * authentication actions and the seed run against them.
 *
 * The user table is a sequence of rows in insertion order; a query such as
 * `getUserByEmail` returns the first row that matches. Every token table is
 * keyed by the token's random value, which identifies a token row as well as
 * its id does.
 */
module Schema {

  datatype Option<+T> = None | Some(value: T)

  type Id = string

  /** A row of the user table; `password` holds a bcrypt hash, `emailVerified` a time stamp. */
  datatype User = User(
    id: Id,
    name: Option<string>,
    email: Option<string>,
    password: Option<string>,
    emailVerified: Option<int>,
    createdById: Option<Id>)

  /** Rows of the four token tables (the key of each table is the token value). */
  datatype VerificationToken = VerificationToken(email: string, expires: int)
  datatype PasswordResetToken = PasswordResetToken(email: string, expires: int)
  datatype RegisterToken = RegisterToken(email: string, name: string, adminId: Id, expires: int)
  datatype NewEmailToken = NewEmailToken(userId: Id, email: string, expires: int)

  datatype UserRole = SuperAdmin | Admin | Member

  /** A row of the role table; a column the insert leaves out is `None` (the column default). */
  datatype Role = Role(id: Id, userRole: UserRole, name: Option<string>, userId: Id, superAdmin: Option<bool>)

  /** A row of the menu table (the columns the seed writes). */
  datatype Menu = Menu(
    id: Id,
    labelText: string,  // the `label` column
    path: string,
    roleId: Id,
    parentId: Option<Id>,
    status: string,
    createBy: Id,
    updateBy: Id)

  /** A message handed to the mail sender: which kind, to whom, carrying which token. */
  datatype MailKind = VerificationMail | PasswordResetMail | RegisterMail
  datatype Mail = Mail(kind: MailKind, to: string, token: string)

  /** A call into the session library. */
  datatype SessionCall = SignIn(email: string, password: string) | SignOut

  /** The whole persistent state, plus the log of mails sent and session calls made. */
  datatype Tables = Tables(
    users: seq<User>,
    verificationTokens: map<string, VerificationToken>,
    passwordResetTokens: map<string, PasswordResetToken>,
    registerTokens: map<string, RegisterToken>,
    newEmailTokens: map<string, NewEmailToken>,
    roles: seq<Role>,
    menus: seq<Menu>,
    outbox: seq<Mail>,
    sessionCalls: seq<SessionCall>)

  function EmptyTables(): Tables {
    Tables([], map[], map[], map[], map[], [], [], [], [])
  }

  /** JavaScript truthiness of a nullable string: `null` and `""` are falsy. */
  predicate Truthy(s: Option<string>) {
    s.Some? && s.value != ""
  }

  /** A token is rejected as expired only when its expiry lies strictly before now. */
  predicate Expired(expires: int, now: int) {
    expires < now
  }

  ghost predicate HasEmail(users: seq<User>, email: string) {
    exists i :: 0 <= i < |users| && users[i].email == Some(email)
  }

  ghost predicate HasId(users: seq<User>, id: Id) {
    exists i :: 0 <= i < |users| && users[i].id == id
  }

  /** No two rows share an address. */
  ghost predicate EmailsUnique(users: seq<User>) {
    forall i, j :: 0 <= i < j < |users| && users[i].email.Some? ==> users[i].email != users[j].email
  }

  /** No two rows share a primary key. */
  ghost predicate IdsUnique(users: seq<User>) {
    forall i, j :: 0 <= i < j < |users| ==> users[i].id != users[j].id
  }

  /** The position of the first row with address `email`, if any. */
  function IndexByEmail(users: seq<User>, email: string): (r: Option<nat>)
    ensures r.None? <==> !HasEmail(users, email)
    ensures r.Some? ==> r.value < |users| && users[r.value].email == Some(email)
    ensures r.Some? ==> forall j :: 0 <= j < r.value ==> users[j].email != Some(email)
  {
    if |users| == 0 then None
    else if users[0].email == Some(email) then Some(0)
    else
      match IndexByEmail(users[1..], email)
      case None =>
        assert forall i :: 0 < i < |users| ==> users[i] == users[1..][i - 1];
        None
      case Some(k) =>
        assert users[k + 1] == users[1..][k];
        Some(k + 1)
  }

  /** The position of the first row with primary key `id`, if any. */
  function IndexById(users: seq<User>, id: Id): (r: Option<nat>)
    ensures r.None? <==> !HasId(users, id)
    ensures r.Some? ==> r.value < |users| && users[r.value].id == id
    ensures r.Some? ==> forall j :: 0 <= j < r.value ==> users[j].id != id
  {
    if |users| == 0 then None
    else if users[0].id == id then Some(0)
    else
      match IndexById(users[1..], id)
      case None =>
        assert forall i :: 0 < i < |users| ==> users[i] == users[1..][i - 1];
        None
      case Some(k) =>
        assert users[k + 1] == users[1..][k];
        Some(k + 1)
  }

  /** `getUserByEmail`: the row the query returns, or none. */
  function UserByEmail(users: seq<User>, email: string): (r: Option<User>)
    ensures r.None? <==> !HasEmail(users, email)
    ensures r.Some? ==> r.value in users && r.value.email == Some(email)
  {
    match IndexByEmail(users, email)
    case None => None
    case Some(i) => Some(users[i])
  }

  /** `getUserById`: the row the query returns, or none. */
  function UserById(users: seq<User>, id: Id): (r: Option<User>)
    ensures r.None? <==> !HasId(users, id)
    ensures r.Some? ==> r.value in users && r.value.id == id
  {
    match IndexById(users, id)
    case None => None
    case Some(i) => Some(users[i])
  }

  /** `UPDATE user SET password = hash WHERE email = email`. */
  function SetPasswordWhereEmail(users: seq<User>, email: string, hash: string): seq<User> {
    seq(|users|, i requires 0 <= i < |users| =>
      if users[i].email == Some(email) then users[i].(password := Some(hash)) else users[i])
  }

  /**
   * `updateUserEmail(id, email)`: the row with that key gets the address. The
   * statement's body is not part of this model, so what it writes to
   * `emailVerified` is the parameter `verified` (keeping the old value, or a
   * confirmation time stamp).
   */
  function SetEmailWhereId(users: seq<User>, id: Id, email: string, verified: Option<int>): seq<User> {
    seq(|users|, i requires 0 <= i < |users| =>
      if users[i].id == id then users[i].(email := Some(email), emailVerified := verified) else users[i])
  }

  /** A row appended after rows without its address is the one `getUserByEmail` returns. */
  lemma {:induction false} UserByEmailAppend(users: seq<User>, u: User, email: string)
    requires !HasEmail(users, email) && u.email == Some(email)
    ensures UserByEmail(users + [u], email) == Some(u)
  {
    var all := users + [u];
    assert all[|users|] == u;
    assert forall i :: 0 <= i < |users| ==> all[i] == users[i];
  }
}

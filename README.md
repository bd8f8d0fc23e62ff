# Authentication actions and bootstrap seed, modelled in Dafny

This project models two parts of an admin-style web application.

- **The authentication server actions** (`src/action/auth.ts`). The actions are `login`, `signup`, `signupByAdmin`, `createByAdmin`, `registerVerification`, `reset`, `newPassword`, `newVerification`, `newEmailVerification` and `logout`. They work on a user table and four token tables:
  - email-verification tokens;
  - password-reset tokens;
  - register-invite tokens, which carry the invited address, the user name and the inviting admin;
  - new-email tokens, which carry a user id and the new address.

  Each action runs a fixed series of guards. Each guard ends in an `{error}`, `{success}` or `{data}` result. The tables change only after every guard has passed.
- **The bootstrap seed** (`src/server/seed/admin.ts`). `runSuperAdmin` inserts the configured super-admin and its role inside one transaction. Then `runAdmin` inserts `admin@test.com`, an "admin" role and one root "Dashboard" menu node, without a transaction. Each step does nothing if its account already exists.

Layout:

- `schema.dfy` (`Schema`): the table rows and `Tables`, a snapshot of the whole database. It also holds the lookups `getUserByEmail` and `getUserById`, modelled as "the first matching row", and the two `UPDATE` statements.
- `database.dfy` (`Store`): the class `Database`. Its fields are the tables and its methods are the data-access calls the actions make (`InsertUser` for both `createUser` and `createUserByAdmin`, `UpdateUserPassword`, `UpdateUserEmail`, `delete*Token`, `generate*Token`, the mail senders, the session library).
- `auth.dfy` (`Auth`): each action appears twice.
  - `XStep` is a function on a snapshot. Its contract states which message comes back in which state and what is created or deleted.
  - `X` is a method on a `Database` that runs the same guards in place. It is proved to leave exactly the snapshot and the response that `XStep` gives.
- `auth_properties.dfy` (`AuthProperties`): lemmas that relate several actions, and lemmas about invariants of the user table.
- `seed.dfy` (`Seed`): `runSuperAdmin`, `runAdmin` and the script that chains them, each as a step function plus a method, followed by their lemmas.

Collaborators outside the core are inputs:

- the clock is an `int now`;
- `bcrypt.hash` is a function parameter `bcrypt: string -> string`, which stands for the salted hash of that one call;
- the result of `signIn` is a `SignInOutcome` (`Ok`, `CredentialsSignin`, `OtherAuthError`, `NonAuthError`);
- the result of `NewPasswordSchema.safeParse` is a boolean `fieldsValid`;
- the random value and the expiry a token generator picks are inputs;
- the keys the database generates are inputs;
- in the seed, what the database answers to each insert is an input: the row comes back, no row comes back, or the statement throws.

Mails are recorded in an outbox. Calls to `signIn` and `signOut` are recorded in a session log. This makes "never calls `signIn`" a statement about the state.

Behaviour of the code worth knowing:

- A token is expired only when `expires < now`, so a token whose expiry equals the current time is accepted (`ExpiryIsStrict`).
- `signupByAdmin` never checks expiry. The lemma `ExpiredInviteStillRedeemable` shows this.
- The three consuming flows update the user row first and delete the token afterwards.
- `newEmailVerification` does not check that the new address is free (`NewEmailVerificationMayDuplicateEmail`).

## Model

| member | source | states |
|---|---|---|
| Schema.IndexByEmail | src/action/auth.ts:23 | the lookup behind `getUserByEmail` finds no row exactly when no row has the address; otherwise it finds the first row that has it |
| Schema.IndexById | src/action/auth.ts:259 | the lookup behind `getUserById` finds no row exactly when no row has the key; otherwise it finds the first row that has it |
| Schema.UserByEmail | src/action/auth.ts:23 | `getUserByEmail` returns a row of the table with that address, and returns nothing exactly when no row has it |
| Schema.UserById | src/action/auth.ts:259 | `getUserById` returns a row of the table with that key, and returns nothing exactly when no row has it |
| Schema.UserByEmailAppend | src/action/auth.ts:68-72 | after a row is inserted for an address no other row had, `getUserByEmail` returns that new row |
| Auth.SignInResponse | src/action/auth.ts:39-54 | each of the four sign-in outcomes maps to its own result: `CredentialsSignin` to "Invalid credentials", any other `AuthError` to "An error occurred", a non-`AuthError` is rethrown, and a sign-in that does not throw gives `undefined` |
| Auth.LoginStep | src/action/auth.ts:20-55 | "Email does not exist" exactly when no row has the address, or the row found lacks a non-empty password or address; that path changes nothing and attempts no sign-in. An account with no `emailVerified` gets a verification token for its address and a mail, and `signIn` is not called. `signIn` is called exactly for a verified password account, and its outcome is mapped. The user table never changes |
| Auth.Login | src/action/auth.ts:20-55 | the in-place action leaves exactly the tables and the response of `LoginStep` |
| Auth.SignupStep | src/action/auth.ts:58-81 | "Email already in use!" exactly when the address is taken, with no change. Otherwise exactly one row is appended, holding the given name, the address and the hash of the password. A verification token for the address is stored and mailed, and nothing else changes |
| Auth.Signup | src/action/auth.ts:58-81 | the in-place action leaves exactly the tables and the response of `SignupStep` |
| Auth.SignupByAdminStep | src/action/auth.ts:83-109 | an unknown token gives the invalid-token error and no change. If the invited address is taken, the result is "Email already in use!" and the token is kept. Otherwise one row is appended with the token's address, the token's admin as `createdById`, the chosen user name, the hashed password and whatever `createUserByAdmin` writes to `emailVerified`, and exactly that token is deleted. No clock is consulted |
| Auth.SignupByAdmin | src/action/auth.ts:83-109 | the in-place action leaves exactly the tables and the response of `SignupByAdminStep` |
| Auth.CreateByAdminStep | src/action/auth.ts:112-127 | "Email already in use!" exactly when the address is taken, with no change. Otherwise no user row is created, and a register token carrying the address, user name and admin is stored and mailed |
| Auth.CreateByAdmin | src/action/auth.ts:112-127 | the in-place action leaves exactly the tables and the response of `CreateByAdminStep` |
| Auth.RegisterVerificationResult | src/action/auth.ts:130-152 | the invalid-token error exactly when the token is unknown, and "Token has expired!" exactly when `expires < now`. Otherwise the result is `{email, username: token.name}` |
| Auth.RegisterVerification | src/action/auth.ts:130-152 | the read-only query returns the invite's address and name exactly when the token exists and has not expired, and it changes no table |
| Auth.ResetStep | src/action/auth.ts:154-172 | "Email does not exist" exactly when no row has the address or the address is empty, with no change. Otherwise a password-reset token for the address is stored and mailed. The user table never changes |
| Auth.Reset | src/action/auth.ts:154-172 | the in-place action leaves exactly the tables and the response of `ResetStep` |
| Auth.NewPasswordStep | src/action/auth.ts:175-218 | the errors fire in this order: missing token, invalid fields, unknown token, expired, no account. Each message comes back exactly when its guard is the first to fail, and no error changes anything. On success every row with the token's address gets the new hash and exactly that token is deleted |
| Auth.NewPassword | src/action/auth.ts:175-218 | the in-place action updates the user rows, then deletes the token, and leaves exactly the tables and the response of `NewPasswordStep` |
| Auth.NewVerificationStep | src/action/auth.ts:220-244 | the errors fire in this order: unknown token, expired, no account with the token's address. No error changes anything. On success the row with the key of the account found by the token's address gets that address written back and the value `updateUserEmail` writes to `emailVerified`, and exactly that token is deleted |
| Auth.NewVerification | src/action/auth.ts:220-244 | the in-place action leaves exactly the tables and the response of `NewVerificationStep` |
| Auth.NewEmailVerificationStep | src/action/auth.ts:246-271 | the errors fire in this order: unknown token, expired, no account with the token's user id. No error changes anything. On success the row with that id gets the token's new address, and exactly that token is deleted |
| Auth.NewEmailVerification | src/action/auth.ts:246-271 | the in-place action leaves exactly the tables and the response of `NewEmailVerificationStep` |
| Auth.Logout | src/action/auth.ts:274-277 | logging out only records a `signOut` call and touches no table |
| AuthProperties.SameEmailsSameLookup | src/action/auth.ts:203 | `getUserByEmail` depends on the address column only |
| AuthProperties.SameIdsSameLookup | src/action/auth.ts:259 | `getUserById` depends on the key column only |
| AuthProperties.SetPasswordKeepsLookup | src/action/auth.ts:211 | updating passwords leaves `getUserByEmail` finding the same row |
| AuthProperties.SetEmailKeepsIdLookup | src/action/auth.ts:265 | updating an address leaves `getUserById` finding the same row |
| AuthProperties.SignupTwice | src/action/auth.ts:62-66 | a second signup with the same address returns "Email already in use!" and changes nothing |
| AuthProperties.SignupThenLogin | src/action/auth.ts:31-37 | right after signup, login with that address re-sends a verification token and never calls `signIn` |
| AuthProperties.SignupKeepsUsersUnique | src/action/auth.ts:62-72 | signup keeps addresses unique, and keeps keys unique when the new key is fresh |
| AuthProperties.InviteRedeemedOnce | src/action/auth.ts:87-104 | after one successful redemption, the same invite token gives the invalid-token error |
| AuthProperties.InviteRoundTrip | src/action/auth.ts:83-152 | after `createByAdmin`, `registerVerification` before expiry returns the invited address and name, and creates no user. Redeeming the token then creates the account with the new key, the chosen name, the hashed password and `createdById` set to the inviting admin, and consumes the token |
| AuthProperties.ExpiredInviteStillRedeemable | src/action/auth.ts:87-104 | an invite that `registerVerification` reports as expired is still redeemed by `signupByAdmin` |
| AuthProperties.SignupByAdminKeepsUsersUnique | src/action/auth.ts:92-102 | redeeming an invite keeps addresses unique, and keeps keys unique when the new key is fresh |
| AuthProperties.ResetRoundTrip | src/action/auth.ts:154-218 | a reset for a known address, then `newPassword` with the mailed token before expiry, stores the new hash on the account. A second use of the token gives "Invalid token" |
| AuthProperties.NewVerificationMarksAccount | src/action/auth.ts:233-241 | when keys are unique, a successful `newVerification` changes exactly one user row, the account found by the token's address: its key, address and other columns stay, and only `emailVerified` takes what `updateUserEmail` writes. Only the token is consumed |
| AuthProperties.SignupVerifyThenLogin | src/action/auth.ts:20-244 | signup, then `newVerification` with the mailed token before it expires and with `updateUserEmail` recording a confirmation, then login: the confirmation answers "Email verified!", and login calls `signIn` and maps its outcome instead of mailing again |
| AuthProperties.NewEmailVerificationSetsEmail | src/action/auth.ts:259-268 | a confirmed email change gives the account with the token's user id the new address and the `emailVerified` value `updateUserEmail` writes, and the token works only once |
| AuthProperties.NewEmailVerificationMayDuplicateEmail | src/action/auth.ts:259-265 | the email-change flow does not re-check that the new address is free. The lemma gives a concrete table with unique addresses that ends with two rows sharing one |
| AuthProperties.ExpiryIsStrict | src/action/auth.ts:130-271 | in all four flows that check expiry, a token whose expiry equals the current time is not rejected as expired |
| Seed.SuperAdminStep | src/server/seed/admin.ts:6-44 | if the configured address exists, nothing happens. A throw inside the transaction rolls back everything. Only the user and role tables can change. When every insert goes through, the super-admin row (configured key and address, hashed configured password, `emailVerified` set) is added together with its role row (superAdmin, `superAdmin: true`, pointing at that row). With a non-empty configured key, nothing changes otherwise. With an empty key the user row commits and no role is written. A user insert that returns no row changes nothing, and the `Error` value returned inside the transaction is discarded, so the run only ever resolves or rejects |
| Seed.RunSuperAdmin | src/server/seed/admin.ts:6-44 | the in-place step, with rollback to the snapshot taken at the start of the transaction, leaves exactly the tables and the outcome of `SuperAdminStep` |
| Seed.AdminStep | src/server/seed/admin.ts:46-92 | if `admin@test.com` exists, nothing happens and the run resolves. Otherwise the user, role and menu inserts run in that order and none is undone. The run resolves exactly when all three succeed, and then the verified admin user, the "Admin" role and one root "Dashboard" node are added. "Failed to create admin" is returned exactly when the user insert gives no row or no key; "Failed to create admin role" exactly when the role insert gives no row. The run rejects exactly when an insert throws. For every outcome the contract gives the exact tables left |
| Seed.RunAdmin | src/server/seed/admin.ts:46-92 | the in-place step leaves exactly the tables and the outcome of `AdminStep` |
| Seed.SeedStep | src/server/seed/admin.ts:94-104 | if `runSuperAdmin` rejects, `runAdmin` never runs and the tables are as before. Otherwise `runAdmin` runs on what `runSuperAdmin` left |
| Seed.RunSeed | src/server/seed/admin.ts:94-104 | the in-place script leaves exactly the tables and the exit of `SeedStep` |
| Seed.SuperAdminIdempotent | src/server/seed/admin.ts:7-11 | running `runSuperAdmin` twice leaves the same state and outcome as running it once |
| Seed.SuperAdminSettled | src/server/seed/admin.ts:7-11 | once the super-admin is inserted, every later `runSuperAdmin` is a no-op |
| Seed.AdminPartialFailureIsPermanent | src/server/seed/admin.ts:48-73 | if the role insert returns no row, the admin account stays with no role and no menu, and a re-run does not repair it |
| Seed.SeedFromEmpty | src/server/seed/admin.ts:18-104 | from an empty database with every insert succeeding, the result is two users and two roles. The admin's `createdById` is the seeded super-admin's key, and there is exactly one root "Dashboard" menu node owned by the admin role and the admin user |

## Left out

- `bcrypt.hash` and `bcrypt` verification: the hash is an input function. Nothing is proved about hashing or password checking.
- `signIn`, `signOut`, `revalidatePath`, `AuthError` and the `action` safe-action wrapper: sign-in is an outcome input, and both session calls are only recorded. The wrapper's schema validation of the inputs of `login`, `signup`, `signupByAdmin`, `createByAdmin` and `reset` is not modelled; each action starts after that validation.
- `NewPasswordSchema.safeParse`: its verdict is the input `fieldsValid`, and the parsed password is taken to equal the given one.
- The token generators under `src/lib/tokens` are not part of this model. Each is modelled as storing one row under a caller-supplied random value and expiry, and other rows are kept. The contracts of `LoginStep`, `SignupStep`, `CreateByAdminStep` and `ResetStep` state the whole new token map under this assumption. Whether the real generator deletes earlier tokens for the same subject is not visible. No lemma relies on earlier rows being kept or removed.
- The mail senders are not part of this model. A send is recorded in the outbox, and the action returns `Sent(mail)` in place of the sender's own return value. Delivery failures are not modelled.
- The data functions under `src/server/data` are not part of this model:
  - `getUserByEmail` is modelled as comparing addresses exactly, with no case folding. When several rows match, `getUserByEmail` and `getUserById` are modelled as returning the first row in insertion order.
  - `createUser` is modelled as writing the name, address and hash it is passed, and leaving `emailVerified` and `createdById` null (`SignupUser`). `SignupThenLogin` relies on the null `emailVerified`.
  - `updateUserPassword(email, …)` is modelled as updating every row with that address (`SetPasswordWhereEmail`).
  - `delete*Token(id)` is modelled as deleting the row by its token value.
  - `createUserByAdmin` is modelled as writing the name, address, hash and inviting admin it is passed. What it writes to `emailVerified` is not visible, so it is an input of `signupByAdmin`.
  - `updateUserEmail` is modelled as writing the address. What it writes to `emailVerified` (the old value, or a confirmation time stamp) is not visible, so it is an input of `newVerification` and `newEmailVerification`. `SignupVerifyThenLogin` assumes it records a confirmation.
- Keys generated by the database are inputs. The uniqueness lemmas require the new key to be fresh.
- The un-awaited calls in `newPassword`, `newVerification` and `newEmailVerification` are modelled as steps that complete in order. Interleavings, concurrent requests and a failing un-awaited update are not modelled.
- Database errors thrown inside the authentication actions are not modelled. In the seed, throws are modelled as an input.
- `process.env` is the `SeedConfig` input, and `process.exit` is the `SeedExit` value. `console.log`, `Date.now` timings and real dates are left out; the clock is an integer.
- Column defaults the seed does not write are `None`: the admin role's `superAdmin` flag, and the menu's `type` and `icon` columns, which are not modelled.
- Role-to-menu permission assignment and menu visibility: no such logic appears in the modelled files beyond the single seed insert.
- The UI files and the data-table configuration contain no statable logic.

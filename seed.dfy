/**
 * The bootstrap seed: create the super-admin account with its role inside one
 * transaction, then an admin account with one role and one root menu node,
 * without a transaction. Each step first checks whether its account exists
 * and does nothing if it does.
 *
 * The environment values are a `SeedConfig`; the clock, the salted hash and
 * what the database answers to each insert are inputs.
 */
module Seed {
  import opened Schema
  import opened Store

  datatype SeedConfig = SeedConfig(superAdminEmail: string, superAdminPassword: string, superAdminId: Id)

  const AdminEmail := "admin@test.com"
  const AdminPassword := "admin1234"
  const FailedAdmin := "Failed to create admin"
  const FailedAdminRole := "Failed to create admin role"

  /**
   * What the database answers to an `insert ... returning`: the inserted row
   * comes back, no row comes back (nothing was inserted), or the statement throws.
   */
  datatype Reply = Row | NoRow | Throws

  /** The answers to the inserts of `runSuperAdmin`; the role insert returns nothing, it can only throw. */
  datatype SuperAdminReplies = SuperAdminReplies(user: Reply, roleThrows: bool, roleId: Id)

  /** The answers to the inserts of `runAdmin`, with the keys the database generates. */
  datatype AdminReplies = AdminReplies(user: Reply, userId: Id, role: Reply, roleId: Id, menuThrows: bool, menuId: Id)

  /** How a seed step's promise settles: resolved, resolved with an `Error` value, or rejected. */
  datatype Completion = Resolved | ReturnedError(message: string) | Rejected

  datatype Run = Run(tables: Tables, completion: Completion)

  /** How the whole script ends: one of the two `catch` handlers, or after `runAdmin` settled. */
  datatype SeedExit = SuperAdminFailed | AdminFailed | Finished(admin: Completion)

  datatype SeedRun = SeedRun(tables: Tables, exit: SeedExit)

  function SuperAdminUser(cfg: SeedConfig, bcrypt: string -> string, now: int): User {
    User(cfg.superAdminId, Some("super admin"), Some(cfg.superAdminEmail), Some(bcrypt(cfg.superAdminPassword)), Some(now), None)
  }

  function SuperAdminRole(cfg: SeedConfig, roleId: Id): Role {
    Role(roleId, SuperAdmin, None, cfg.superAdminId, Some(true))
  }

  function AdminUser(cfg: SeedConfig, bcrypt: string -> string, now: int, id: Id): User {
    User(id, Some("admin"), Some(AdminEmail), Some(bcrypt(AdminPassword)), Some(now), Some(cfg.superAdminId))
  }

  function AdminRole(roleId: Id, userId: Id): Role {
    Role(roleId, Admin, Some("Admin"), userId, None)
  }

  function DashboardMenu(menuId: Id, roleId: Id, userId: Id): Menu {
    Menu(menuId, "Dashboard", "/", roleId, None, "active", userId, userId)
  }

  // ---------------------------------------------------------------- runSuperAdmin

  /** The inserts of `runSuperAdmin` all went through. */
  predicate SuperAdminInserted(t: Tables, cfg: SeedConfig, replies: SuperAdminReplies) {
    && UserByEmail(t.users, cfg.superAdminEmail).None?
    && replies.user == Row && cfg.superAdminId != "" && !replies.roleThrows
  }

  function SuperAdminStep(t: Tables, cfg: SeedConfig, bcrypt: string -> string, now: int,
                          replies: SuperAdminReplies): (r: Run)
    ensures HasEmail(t.users, cfg.superAdminEmail) ==> r == Run(t, Resolved)
    ensures r.completion == Rejected ==> r.tables == t
    ensures r.completion == Rejected <==>
      !HasEmail(t.users, cfg.superAdminEmail) &&
      (replies.user == Throws || (replies.user == Row && cfg.superAdminId != "" && replies.roleThrows))
    ensures r.tables.(users := t.users, roles := t.roles) == t
    ensures SuperAdminInserted(t, cfg, replies) ==>
      && r.tables.users == t.users + [SuperAdminUser(cfg, bcrypt, now)]
      && r.tables.roles == t.roles + [SuperAdminRole(cfg, replies.roleId)]
    ensures !SuperAdminInserted(t, cfg, replies) && cfg.superAdminId != "" ==> r.tables == t
    // a returned `Error` inside the transaction is discarded: the run never settles with one
    ensures r.completion == Resolved || r.completion == Rejected
    ensures !HasEmail(t.users, cfg.superAdminEmail) && replies.user == NoRow ==> r.tables == t
    // with an empty configured key the user row commits and no role is written
    ensures !HasEmail(t.users, cfg.superAdminEmail) && replies.user == Row && cfg.superAdminId == "" ==>
      r.tables == t.(users := t.users + [SuperAdminUser(cfg, bcrypt, now)])
  {
    if UserByEmail(t.users, cfg.superAdminEmail).Some? then Run(t, Resolved)
    else
      // the transaction: a throw rolls back, a returned `Error` value commits
      match replies.user
      case Throws => Run(t, Rejected)
      case NoRow => Run(t, Resolved)
      case Row =>
        var withUser := t.(users := t.users + [SuperAdminUser(cfg, bcrypt, now)]);
        if cfg.superAdminId == "" then Run(withUser, Resolved)
        else if replies.roleThrows then Run(t, Rejected)
        else Run(withUser.(roles := t.roles + [SuperAdminRole(cfg, replies.roleId)]), Resolved)
  }

  method RunSuperAdmin(db: Database, cfg: SeedConfig, bcrypt: string -> string, now: int,
                       replies: SuperAdminReplies) returns (c: Completion)
    modifies db
    ensures db.Snapshot() == SuperAdminStep(old(db.Snapshot()), cfg, bcrypt, now, replies).tables
    ensures c == SuperAdminStep(old(db.Snapshot()), cfg, bcrypt, now, replies).completion
  {
    var userinfo := UserByEmail(db.users, cfg.superAdminEmail);
    if userinfo.Some? {
      return Resolved;
    }
    var hashedPassword := bcrypt(cfg.superAdminPassword);
    var beforeTransaction := db.Snapshot();
    if replies.user == Throws {
      db.Restore(beforeTransaction);
      return Rejected;
    }
    if replies.user == NoRow {
      return Resolved;
    }
    db.InsertUser(User(cfg.superAdminId, Some("super admin"), Some(cfg.superAdminEmail), Some(hashedPassword),
                       Some(now), None));
    var userId := cfg.superAdminId;
    if userId == "" {
      return Resolved;
    }
    if replies.roleThrows {
      db.Restore(beforeTransaction);
      return Rejected;
    }
    db.InsertRole(Role(replies.roleId, SuperAdmin, None, userId, Some(true)));
    c := Resolved;
  }

  // ---------------------------------------------------------------- runAdmin

  function AdminStep(t: Tables, cfg: SeedConfig, bcrypt: string -> string, now: int,
                     replies: AdminReplies): (r: Run)
    ensures HasEmail(t.users, AdminEmail) ==> r == Run(t, Resolved)
    ensures r.tables.(users := t.users, roles := t.roles, menus := t.menus) == t
    // how each outcome arises: the inserts run in order, each failure ends the run
    ensures r.completion == Resolved <==>
      || HasEmail(t.users, AdminEmail)
      || (replies.user == Row && replies.userId != "" && replies.role == Row && !replies.menuThrows)
    ensures r.completion == ReturnedError(FailedAdmin) <==>
      !HasEmail(t.users, AdminEmail) && (replies.user == NoRow || (replies.user == Row && replies.userId == ""))
    ensures r.completion == ReturnedError(FailedAdminRole) <==>
      !HasEmail(t.users, AdminEmail) && replies.user == Row && replies.userId != "" && replies.role == NoRow
    ensures r.completion == Rejected <==>
      && !HasEmail(t.users, AdminEmail)
      && (|| replies.user == Throws
          || (replies.user == Row && replies.userId != "" &&
              (replies.role == Throws || (replies.role == Row && replies.menuThrows))))
    // what each outcome leaves behind: no earlier insert is undone
    ensures !HasEmail(t.users, AdminEmail) && replies.user != Row ==>
      r.tables == t
    ensures !HasEmail(t.users, AdminEmail) && replies.user == Row && (replies.userId == "" || replies.role != Row) ==>
      r.tables == t.(users := t.users + [AdminUser(cfg, bcrypt, now, replies.userId)])
    ensures !HasEmail(t.users, AdminEmail) && replies.user == Row && replies.userId != "" && replies.role == Row ==>
      var withRole := t.(users := t.users + [AdminUser(cfg, bcrypt, now, replies.userId)],
                         roles := t.roles + [AdminRole(replies.roleId, replies.userId)]);
      r.tables == if replies.menuThrows then withRole
                  else withRole.(menus := t.menus + [DashboardMenu(replies.menuId, replies.roleId, replies.userId)])
  {
    if UserByEmail(t.users, AdminEmail).Some? then Run(t, Resolved)
    else
      match replies.user
      case Throws => Run(t, Rejected)
      case NoRow => Run(t, ReturnedError(FailedAdmin))
      case Row =>
        var withUser := t.(users := t.users + [AdminUser(cfg, bcrypt, now, replies.userId)]);
        if replies.userId == "" then Run(withUser, ReturnedError(FailedAdmin))
        else
          match replies.role
          case Throws => Run(withUser, Rejected)
          case NoRow => Run(withUser, ReturnedError(FailedAdminRole))
          case Row =>
            var withRole := withUser.(roles := t.roles + [AdminRole(replies.roleId, replies.userId)]);
            if replies.menuThrows then Run(withRole, Rejected)
            else Run(withRole.(menus := t.menus + [DashboardMenu(replies.menuId, replies.roleId, replies.userId)]),
                     Resolved)
  }

  method RunAdmin(db: Database, cfg: SeedConfig, bcrypt: string -> string, now: int,
                  replies: AdminReplies) returns (c: Completion)
    modifies db
    ensures db.Snapshot() == AdminStep(old(db.Snapshot()), cfg, bcrypt, now, replies).tables
    ensures c == AdminStep(old(db.Snapshot()), cfg, bcrypt, now, replies).completion
  {
    var userinfo := UserByEmail(db.users, AdminEmail);
    if userinfo.Some? {
      return Resolved;
    }
    if replies.user == Throws {
      return Rejected;
    }
    if replies.user == NoRow {
      return ReturnedError(FailedAdmin);
    }
    db.InsertUser(User(replies.userId, Some("admin"), Some(AdminEmail), Some(bcrypt(AdminPassword)), Some(now),
                       Some(cfg.superAdminId)));
    var userId := replies.userId;
    if userId == "" {
      return ReturnedError(FailedAdmin);
    }
    if replies.role == Throws {
      return Rejected;
    }
    if replies.role == NoRow {
      return ReturnedError(FailedAdminRole);
    }
    db.InsertRole(Role(replies.roleId, Admin, Some("Admin"), userId, None));
    if replies.menuThrows {
      return Rejected;
    }
    db.InsertMenu(Menu(replies.menuId, "Dashboard", "/", replies.roleId, None, "active", userId, userId));
    c := Resolved;
  }

  // ---------------------------------------------------------------- the script

  /** `runSuperAdmin().then(() => runAdmin())`, each failure caught and ending the process. */
  function SeedStep(t: Tables, cfg: SeedConfig, bcrypt: string -> string, superNow: int, adminNow: int,
                    superReplies: SuperAdminReplies, adminReplies: AdminReplies): (r: SeedRun)
    ensures SuperAdminStep(t, cfg, bcrypt, superNow, superReplies).completion == Rejected ==>
      r == SeedRun(t, SuperAdminFailed)
    ensures SuperAdminStep(t, cfg, bcrypt, superNow, superReplies).completion != Rejected ==>
      var first := SuperAdminStep(t, cfg, bcrypt, superNow, superReplies).tables;
      var second := AdminStep(first, cfg, bcrypt, adminNow, adminReplies);
      && r.tables == second.tables
      && r.exit == (if second.completion == Rejected then AdminFailed else Finished(second.completion))
  {
    var first := SuperAdminStep(t, cfg, bcrypt, superNow, superReplies);
    if first.completion == Rejected then SeedRun(first.tables, SuperAdminFailed)
    else
      var second := AdminStep(first.tables, cfg, bcrypt, adminNow, adminReplies);
      SeedRun(second.tables, if second.completion == Rejected then AdminFailed else Finished(second.completion))
  }

  method RunSeed(db: Database, cfg: SeedConfig, bcrypt: string -> string, superNow: int, adminNow: int,
                 superReplies: SuperAdminReplies, adminReplies: AdminReplies) returns (exit: SeedExit)
    modifies db
    ensures db.Snapshot() == SeedStep(old(db.Snapshot()), cfg, bcrypt, superNow, adminNow, superReplies, adminReplies).tables
    ensures exit == SeedStep(old(db.Snapshot()), cfg, bcrypt, superNow, adminNow, superReplies, adminReplies).exit
  {
    var superAdmin := RunSuperAdmin(db, cfg, bcrypt, superNow, superReplies);
    if superAdmin == Rejected {
      return SuperAdminFailed;
    }
    var admin := RunAdmin(db, cfg, bcrypt, adminNow, adminReplies);
    if admin == Rejected {
      return AdminFailed;
    }
    exit := Finished(admin);
  }

  // ---------------------------------------------------------------- properties

  /** Running `runSuperAdmin` twice leaves the same state and outcome as running it once. */
  lemma SuperAdminIdempotent(t: Tables, cfg: SeedConfig, bcrypt: string -> string, now: int,
                             bcrypt2: string -> string, now2: int, replies: SuperAdminReplies)
    ensures var once := SuperAdminStep(t, cfg, bcrypt, now, replies);
      SuperAdminStep(once.tables, cfg, bcrypt2, now2, replies) == once
  {
    var once := SuperAdminStep(t, cfg, bcrypt, now, replies);
    if once.tables.users != t.users {
      assert once.tables.users[|t.users|].email == Some(cfg.superAdminEmail);
    }
  }

  /** Once the super-admin account exists, any further `runSuperAdmin` is a no-op. */
  lemma SuperAdminSettled(t: Tables, cfg: SeedConfig, bcrypt: string -> string, now: int, replies: SuperAdminReplies,
                          bcrypt2: string -> string, now2: int, replies2: SuperAdminReplies)
    requires SuperAdminInserted(t, cfg, replies)
    ensures var once := SuperAdminStep(t, cfg, bcrypt, now, replies);
      SuperAdminStep(once.tables, cfg, bcrypt2, now2, replies2) == Run(once.tables, Resolved)
  {
    var once := SuperAdminStep(t, cfg, bcrypt, now, replies);
    assert once.tables.users[|t.users|].email == Some(cfg.superAdminEmail);
  }

  /**
   * `runAdmin` is not transactional: when the role insert returns no row the
   * admin account stays without role or menu, and no later run repairs it.
   */
  lemma AdminPartialFailureIsPermanent(t: Tables, cfg: SeedConfig, bcrypt: string -> string, now: int,
                                       replies: AdminReplies, bcrypt2: string -> string, now2: int, replies2: AdminReplies)
    requires !HasEmail(t.users, AdminEmail) && replies.user == Row && replies.userId != "" && replies.role == NoRow
    ensures var once := AdminStep(t, cfg, bcrypt, now, replies);
      && once.completion == ReturnedError(FailedAdminRole)
      && once.tables.roles == t.roles && once.tables.menus == t.menus
      && UserByEmail(once.tables.users, AdminEmail) == Some(AdminUser(cfg, bcrypt, now, replies.userId))
      && AdminStep(once.tables, cfg, bcrypt2, now2, replies2) == Run(once.tables, Resolved)
  {
    UserByEmailAppend(t.users, AdminUser(cfg, bcrypt, now, replies.userId), AdminEmail);
  }

  /**
   * From an empty database with every insert succeeding, the script leaves the
   * super-admin and the admin it created, the admin's role, and one root
   * "Dashboard" menu node owned by that role and that admin.
   */
  lemma {:induction false} SeedFromEmpty(cfg: SeedConfig, bcrypt: string -> string, superNow: int, adminNow: int,
                                         superReplies: SuperAdminReplies, adminReplies: AdminReplies)
    requires cfg.superAdminEmail != AdminEmail && cfg.superAdminId != ""
    requires superReplies.user == Row && !superReplies.roleThrows
    requires adminReplies.user == Row && adminReplies.userId != "" && adminReplies.role == Row && !adminReplies.menuThrows
    ensures var r := SeedStep(EmptyTables(), cfg, bcrypt, superNow, adminNow, superReplies, adminReplies);
      && r.exit == Finished(Resolved)
      && |r.tables.users| == 2
      && r.tables.users[0].id == cfg.superAdminId
      && r.tables.users[0].email == Some(cfg.superAdminEmail)
      && r.tables.users[1].email == Some(AdminEmail)
      && r.tables.users[1].createdById == Some(r.tables.users[0].id)
      && r.tables.roles == [SuperAdminRole(cfg, superReplies.roleId), AdminRole(adminReplies.roleId, adminReplies.userId)]
      && r.tables.menus == [DashboardMenu(adminReplies.menuId, adminReplies.roleId, adminReplies.userId)]
      && r.tables.menus[0].parentId.None?
  {
    var first := SuperAdminStep(EmptyTables(), cfg, bcrypt, superNow, superReplies).tables;
    assert first.users == [SuperAdminUser(cfg, bcrypt, superNow)];
    assert !HasEmail(first.users, AdminEmail);
  }
}

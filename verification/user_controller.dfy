/**
 * The authorization rules of controllers/userController.ts over the user
 * store.  The store (dao/userDAO.ts) is not part of this model: it is read as
 * the `users` map, a lookup of an absent username failing with UserNotFound.
 */
module UserController {
  import opened Wrappers
  import opened Failures
  import opened Schema
  import opened Db

  /** The store's lookup by username. */
  function Lookup(users: map<string, User>, username: string): (r: Outcome<User>)
    ensures r.Ok? <==> username in users
    ensures r.Ok? ==> r.value == users[username]
    ensures r.Fail? ==> r.failure == UserNotFound
  {
    if username in users then Ok(users[username]) else Fail(UserNotFound)
  }

  // ------------------------------------------------------------- reading

  /**
   * An Admin may read any user; anyone else only the user whose username is
   * their own *name* (the comparison is on `name`, not `username`).
   */
  function GetUserByUsername(users: map<string, User>, caller: User, username: string): (r: Outcome<User>)
    ensures r == Fail(UnauthorizedUser) <==> caller.name != username && caller.role != Admin
    ensures r == Fail(UserNotFound) <==> (caller.name == username || caller.role == Admin) && username !in users
    ensures r.Ok? <==> (caller.name == username || caller.role == Admin) && username in users
    ensures r.Ok? ==> r.value == users[username]
  {
    if caller.name == username || caller.role == Admin then Lookup(users, username)
    else Fail(UnauthorizedUser)
  }

  /** A Customer or Manager whose name differs from their username cannot read their own record. */
  lemma OwnRecordNeedsMatchingName(users: map<string, User>, caller: User)
    requires caller.role != Admin && caller.name != caller.username
    ensures GetUserByUsername(users, caller, caller.username) == Fail(UnauthorizedUser)
  {
  }

  /** A Customer or Manager whose name is another user's username can read that user's record. */
  lemma NameMatchReadsOtherRecord(users: map<string, User>, caller: User, other: string)
    requires caller.role != Admin && other in users && other != caller.username && caller.name == other
    ensures GetUserByUsername(users, caller, other) == Ok(users[other])
  {
  }

  // ------------------------------------------------------------ deletion

  /**
   * Why `caller` may not delete `target` (stored under `username`): a
   * non-Admin deleting someone else, or an Admin deleting an Admin of
   * another name.
   */
  function DeleteDenial(caller: User, target: User, username: string): (e: Option<Failure>)
    ensures e == Some(UserNotAdmin) <==> caller.username != username && caller.role != Admin
    ensures e == Some(UserIsAdmin) <==>
      (caller.username == username || caller.role == Admin) && caller.role == Admin && target.role == Admin && caller.name != target.name
    ensures e.None? ==> caller.username == username || caller.role == Admin
    ensures e.None? && caller.role == Admin && target.role == Admin ==> caller.name == target.name
  {
    if caller.username != username && caller.role != Admin then Some(UserNotAdmin)
    else if caller.role == Admin && target.role == Admin && caller.name != target.name then Some(UserIsAdmin)
    else None
  }

  /** Since the Admin check compares names, an Admin may delete another Admin who shares their name. */
  lemma SameNamedAdminDeletable(caller: User, target: User, username: string)
    requires caller.role == Admin && target.role == Admin && caller.name == target.name
    ensures DeleteDenial(caller, target, username).None?
  {
  }

  /**
   * Deletes the user `username`.  The target is looked up first, so a
   * missing user is reported before any authorization check.
   */
  method DeleteUser(db: Database, caller: User, username: string) returns (r: Outcome<bool>)
    requires db.WellFormed()
    modifies db`users
    ensures db.WellFormed()
    ensures username !in old(db.users) <==> r == Fail(UserNotFound)
    ensures username in old(db.users) ==>
      var denial := DeleteDenial(caller, old(db.users[username]), username);
      (denial.Some? ==> r == Fail(denial.value)) && (denial.None? ==> r == Ok(true))
    ensures r.Fail? ==> unchanged(db)
    ensures r.Ok? ==> db.users == old(db.users) - {username}
  {
    var target := Lookup(db.users, username);
    if target.Fail? {
      return Fail(target.failure);
    }
    var denial := DeleteDenial(caller, target.value, username);
    if denial.Some? {
      return Fail(denial.value);
    }
    db.users := db.users - {username};
    r := Ok(true);
  }

  // -------------------------------------------------------------- update

  /**
   * Why `caller` may not update `target` (stored under `username`): a
   * non-Admin updating someone else, or an Admin updating another Admin.
   */
  function UpdateDenial(caller: User, target: User, username: string): (e: Option<Failure>)
    ensures e == Some(UserNotAdmin) <==> caller.username != username && caller.role != Admin
    ensures e == Some(UnauthorizedUser) <==>
      caller.username != username && caller.role == Admin && target.role == Admin
    ensures e.None? <==> caller.username == username || (caller.role == Admin && target.role != Admin)
  {
    if caller.username != username && caller.role != Admin then Some(UserNotAdmin)
    else if caller.role == Admin && target.role == Admin && caller.username != username then Some(UnauthorizedUser)
    else None
  }

  /**
   * Replaces the name, surname, address and birthdate of user `username`
   * and answers the user as read back from the store.
   */
  method UpdateUserInfo(
    db: Database, caller: User, name: string, surname: string, address: string, birthdate: string, username: string)
    returns (r: Outcome<User>)
    requires db.WellFormed()
    modifies db`users
    ensures db.WellFormed()
    ensures username !in old(db.users) <==> r == Fail(UserNotFound)
    ensures username in old(db.users) ==>
      var denial := UpdateDenial(caller, old(db.users[username]), username);
      (denial.Some? ==> r == Fail(denial.value)) && (denial.None? ==> r.Ok?)
    ensures r.Fail? ==> unchanged(db)
    ensures r.Ok? ==>
      var before := old(db.users[username]);
      && r.value == before.(name := name, surname := surname, address := address, birthdate := birthdate)
      && r.value.username == username && r.value.role == before.role
      && db.users == old(db.users)[username := r.value]
  {
    var target := Lookup(db.users, username);
    if target.Fail? {
      return Fail(target.failure);
    }
    var denial := UpdateDenial(caller, target.value, username);
    if denial.Some? {
      return Fail(denial.value);
    }
    var before := target.value;
    db.users := db.users[username := before.(name := name, surname := surname, address := address, birthdate := birthdate)];
    r := Lookup(db.users, username);
  }

  // ---------------------------------------------------------- delete all

  /** Deletes every user who is not an Admin. */
  method DeleteAll(db: Database) returns (r: bool)
    requires db.WellFormed()
    modifies db`users
    ensures db.WellFormed()
    ensures r
    ensures forall u :: u in old(db.users) && old(db.users[u]).role == Admin ==> u in db.users && db.users[u] == old(db.users[u])
    ensures forall u :: u in db.users ==> u in old(db.users) && db.users[u].role == Admin
  {
    db.users := map u | u in db.users && db.users[u].role == Admin :: db.users[u];
    r := true;
  }
}

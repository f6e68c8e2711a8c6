/**
 * The user database: user records, their permission flags, and the delete
 * operation with its last-admin guard.  Each database round trip may fail;
 * whether it does is a parameter.  The `user_perm` rows reference `user` rows
 * and are removed with them (the foreign key cascades).
 */
module UserDatabase {
  import opened Common

  type UserId = string

  /** A row of the `user` table (the columns the core reads). */
  datatype UserRecord = UserRecord(username: string)

  /** A row of the `user_perm` table. */
  datatype Perm = Perm(isAdmin: bool, activated: bool)

  /** The exceptions the operations raise. */
  datatype Error =
    | UserRecordReadError
    | UserPermReadError
    | UserNotFoundError
    | LastAdminError
    | UserDeletionError
    | UserPermEditError

  datatype Result<T> = Ok(value: T) | Raised(error: Error)

  /** Which database round trips of one operation fail. */
  datatype Faults = Faults(userRead: bool, permRead: bool, adminCount: bool, delete: bool)

  /**
   * The round trips as the deployed code performs them.  The permission
   * read fetches after its cursor's `with` block has closed the cursor, which
   * psycopg 3 refuses; the pool's connections return dictionary rows, so the
   * count's `fetchone()[0]` raises KeyError; and the delete names the table
   * `users.users`, which does not exist.  Only the user read can succeed.
   */
  function AsDeployed(userRead: bool): (f: Faults)
    ensures f.permRead && f.adminCount && f.delete && f.userRead == userRead
  {
    Faults(userRead, true, true, true)
  }

  /** What `delete_user` gives its caller. */
  datatype DeleteResult = ReturnedTrue | ReturnedNone | Failed(error: Error)

  /** The characters a username keeps: `[A-Za-z0-9_]`. */
  predicate UsernameChar(c: char) {
    ('a' <= c <= 'z') || ('A' <= c <= 'Z') || ('0' <= c <= '9') || c == '_'
  }

  /** The characters of a stored username: `[a-z0-9_]`. */
  predicate StoredUsernameChar(c: char) {
    ('a' <= c <= 'z') || ('0' <= c <= '9') || c == '_'
  }

  /**
   * `_sanitize_username`: the allowed characters in order, then lower-cased.
   * Only ASCII letters survive the filter, so lower-casing them is the ASCII
   * mapping.
   */
  function SanitizeUsername(username: string): (r: string)
    ensures |r| <= |username|
    ensures All(r, StoredUsernameChar)
  {
    var kept := Filter(username, UsernameChar);
    var r := AsciiLower(kept);
    assert forall i :: 0 <= i < |r| ==> UsernameChar(kept[i]);
    r
  }

  /**
   * Sanitising keeps every allowed character (lower-cased) in order and
   * drops the rest, and a sanitised name is left unchanged.
   */
  lemma SanitizeUsernameSpec(username: string, rest: string)
    ensures SanitizeUsername(username + rest) == SanitizeUsername(username) + SanitizeUsername(rest)
    ensures SanitizeUsername(SanitizeUsername(username)) == SanitizeUsername(username)
    ensures SanitizeUsername(username) == username <==> All(username, StoredUsernameChar)
  {
    FilterConcat(username, rest, UsernameChar);
    AsciiLowerConcat(Filter(username, UsernameChar), Filter(rest, UsernameChar));
    var s := SanitizeUsername(username);
    assert forall i :: 0 <= i < |s| ==> UsernameChar(s[i]);
    FilterIdentity(s, UsernameChar);
    LowerOfStored(s);
    if All(username, StoredUsernameChar) {
      assert All(username, UsernameChar);
      FilterIdentity(username, UsernameChar);
      LowerOfStored(username);
    }
  }

  lemma {:induction false} AsciiLowerConcat(a: string, b: string)
    ensures AsciiLower(a + b) == AsciiLower(a) + AsciiLower(b)
  {
    if a != [] {
      assert (a + b)[1..] == a[1..] + b;
      AsciiLowerConcat(a[1..], b);
    }
  }

  /** Lower-casing leaves a name of stored characters alone. */
  lemma LowerOfStored(s: string)
    requires All(s, StoredUsernameChar)
    ensures AsciiLower(s) == s
  {
  }

  /** The active admins: users that are both admin and activated. */
  function ActiveAdmins(perms: map<UserId, Perm>): set<UserId> {
    set id | id in perms && perms[id].isAdmin && perms[id].activated
  }

  /** Removing one user removes at most that user from the active admins. */
  lemma ActiveAdminsWithout(perms: map<UserId, Perm>, id: UserId)
    ensures ActiveAdmins(perms - {id}) == ActiveAdmins(perms) - {id}
    ensures |ActiveAdmins(perms - {id})| >= |ActiveAdmins(perms)| - 1
  {
    var a := ActiveAdmins(perms);
    assert ActiveAdmins(perms - {id}) == a - {id};
    if id in a {
      assert a == (a - {id}) + {id};
    } else {
      assert a - {id} == a;
    }
  }

  /** The database's user state. */
  class UserStore {
    var users: map<UserId, UserRecord>
    var perms: map<UserId, Perm>

    /** Every permission row belongs to a user row. */
    ghost predicate Valid()
      reads this
    {
      perms.Keys <= users.Keys
    }

    constructor (users: map<UserId, UserRecord>, perms: map<UserId, Perm>)
      requires perms.Keys <= users.Keys
      ensures Valid() && this.users == users && this.perms == perms
    {
      this.users := users;
      this.perms := perms;
    }

    /**
     * `_get_user_record`.  A missing row raises UserNotFoundError inside the
     * `try`, whose catch-all turns it into UserRecordReadError like any
     * other failure.
     */
    function GetUserRecord(userId: UserId, fault: bool): (r: Result<UserRecord>)
      reads this
      ensures r.Ok? <==> !fault && userId in users
      ensures r.Ok? ==> r.value == users[userId]
      ensures r.Raised? ==> r.error == UserRecordReadError
    {
      if !fault && userId in users then Ok(users[userId]) else Raised(UserRecordReadError)
    }

    /** `_get_user_perm_record`: a missing row also becomes UserPermReadError. */
    function GetUserPermRecord(userId: UserId, fault: bool): (r: Result<Perm>)
      reads this
      ensures r.Ok? <==> !fault && userId in perms
      ensures r.Ok? ==> r.value == perms[userId]
      ensures r.Raised? ==> r.error == UserPermReadError
    {
      if !fault && userId in perms then Ok(perms[userId]) else Raised(UserPermReadError)
    }

    /** `_get_admin_count`: the number of active admins, or 0 if the query fails. */
    function GetAdminCount(fault: bool): (n: nat)
      reads this
      ensures fault ==> n == 0
      ensures !fault ==> n == |ActiveAdmins(perms)|
    {
      if fault then 0 else |ActiveAdmins(perms)|
    }

    /**
     * `_delete_user_record`: removes the user (and, by the cascade, its
     * permission row); no affected row, or any database error, rolls back
     * and raises UserDeletionError.
     */
    method DeleteUserRecord(userId: UserId, fault: bool) returns (r: Result<bool>)
      requires Valid()
      modifies this
      ensures Valid()
      ensures r.Ok? <==> !fault && userId in old(users)
      ensures r.Ok? ==> r.value && users == old(users) - {userId} && perms == old(perms) - {userId}
      ensures r.Raised? ==> r.error == UserDeletionError && users == old(users) && perms == old(perms)
    {
      if fault || userId !in users {
        return Raised(UserDeletionError);
      }
      users := users - {userId};
      perms := perms - {userId};
      return Ok(true);
    }

    /**
     * `_set_user_perm_record`: both flags false are the column defaults, so
     * nothing is written and True is returned; otherwise the row is updated,
     * and no affected row or a database error raises UserPermEditError.
     */
    method SetUserPermRecord(userId: UserId, isAdmin: bool, activate: bool, fault: bool) returns (r: Result<bool>)
      requires Valid()
      modifies this
      ensures Valid() && users == old(users)
      ensures !isAdmin && !activate ==> r == Ok(true) && perms == old(perms)
      ensures (isAdmin || activate) ==>
        if !fault && userId in old(perms) then r == Ok(true) && perms == old(perms)[userId := Perm(isAdmin, activate)]
        else r == Raised(UserPermEditError) && perms == old(perms)
    {
      if !activate && !isAdmin {
        return Ok(true);
      }
      if fault || userId !in perms {
        return Raised(UserPermEditError);
      }
      perms := perms[userId := Perm(isAdmin, activate)];
      return Ok(true);
    }

    /**
     * `delete_user` as written.  A missing user surfaces as
     * UserRecordReadError (never UserNotFoundError); an admin is refused
     * while at most one active admin is counted, and otherwise the function
     * falls off its end: it returns None and deletes nothing.
     */
    method DeleteUser(userId: UserId, faults: Faults) returns (r: DeleteResult)
      requires Valid()
      modifies this
      ensures Valid()
      ensures r == DeleteUserOutcome(old(users), old(perms), userId, faults)
      ensures r == ReturnedTrue ==> users == old(users) - {userId} && perms == old(perms) - {userId}
      ensures r != ReturnedTrue ==> users == old(users) && perms == old(perms)
    {
      var user := GetUserRecord(userId, faults.userRead);
      if user.Raised? {
        return Failed(user.error);
      }
      var perm := GetUserPermRecord(userId, faults.permRead);
      if perm.Raised? {
        return Failed(perm.error);
      }
      if perm.value.isAdmin {
        var count := GetAdminCount(faults.adminCount);
        if count <= 1 {
          return Failed(LastAdminError);
        }
        return ReturnedNone;
      }
      var deleted := DeleteUserRecord(userId, faults.delete);
      if deleted.Raised? {
        return Failed(deleted.error);
      }
      return ReturnedTrue;
    }

    /**
     * `delete_user` as its documentation describes it: a missing user or
     * permission row raises UserNotFoundError, and an admin is deleted when
     * more than one active admin is counted.
     */
    method DeleteUserIntended(userId: UserId, faults: Faults) returns (r: DeleteResult)
      requires Valid()
      modifies this
      ensures Valid()
      ensures r == DeleteUserIntendedOutcome(old(users), old(perms), userId, faults)
      ensures r == ReturnedTrue ==> users == old(users) - {userId} && perms == old(perms) - {userId}
      ensures r != ReturnedTrue ==> users == old(users) && perms == old(perms)
    {
      if faults.userRead {
        return Failed(UserRecordReadError);
      }
      if userId !in users {
        return Failed(UserNotFoundError);
      }
      if faults.permRead {
        return Failed(UserPermReadError);
      }
      if userId !in perms {
        return Failed(UserNotFoundError);
      }
      if perms[userId].isAdmin {
        var count := GetAdminCount(faults.adminCount);
        if count <= 1 {
          return Failed(LastAdminError);
        }
      }
      var deleted := DeleteUserRecord(userId, faults.delete);
      if deleted.Raised? {
        return Failed(deleted.error);
      }
      return ReturnedTrue;
    }
  }

  /** The answer of `delete_user` as written, on a given database state. */
  function DeleteUserOutcome(users: map<UserId, UserRecord>, perms: map<UserId, Perm>, userId: UserId, faults: Faults): DeleteResult
  {
    if faults.userRead || userId !in users then Failed(UserRecordReadError)
    else if faults.permRead || userId !in perms then Failed(UserPermReadError)
    else if perms[userId].isAdmin then
      (if faults.adminCount || |ActiveAdmins(perms)| <= 1 then Failed(LastAdminError) else ReturnedNone)
    else if faults.delete then Failed(UserDeletionError)
    else ReturnedTrue
  }

  /** The answer of `delete_user` as documented. */
  function DeleteUserIntendedOutcome(users: map<UserId, UserRecord>, perms: map<UserId, Perm>, userId: UserId, faults: Faults): DeleteResult
  {
    if faults.userRead then Failed(UserRecordReadError)
    else if userId !in users then Failed(UserNotFoundError)
    else if faults.permRead then Failed(UserPermReadError)
    else if userId !in perms then Failed(UserNotFoundError)
    else if perms[userId].isAdmin && (faults.adminCount || |ActiveAdmins(perms)| <= 1) then Failed(LastAdminError)
    else if faults.delete then Failed(UserDeletionError)
    else ReturnedTrue
  }

  /**
   * The HTTP status the delete endpoint answers with: 200 on a true result,
   * 403 for LastAdminError, 404 for UserNotFoundError, and 500 for anything
   * else, including a None result, which the endpoint turns into
   * UserDeletionError.
   */
  function DeleteStatus(r: DeleteResult): (status: int)
    ensures status == 200 <==> r == ReturnedTrue
    ensures status == 403 <==> r == Failed(LastAdminError)
    ensures status == 404 <==> r == Failed(UserNotFoundError)
    ensures status in {200, 403, 404, 500}
  {
    match r
    case ReturnedTrue => 200
    case ReturnedNone => 500
    case Failed(LastAdminError) => 403
    case Failed(UserNotFoundError) => 404
    case Failed(_) => 500
  }

  /**
   * As written, `delete_user` only ever deletes a non-admin, never answers
   * UserNotFoundError (so the endpoint never answers 404), refuses every
   * admin when the count query fails (which, as deployed, it always does),
   * and answers None exactly for an admin while more than one active admin
   * is counted, a latent case that only a working count can reach.
   */
  lemma DeleteUserAsWritten(users: map<UserId, UserRecord>, perms: map<UserId, Perm>, userId: UserId, faults: Faults)
    ensures var r := DeleteUserOutcome(users, perms, userId, faults);
      && (r == ReturnedTrue ==> userId in perms && !perms[userId].isAdmin)
      && r != Failed(UserNotFoundError)
      && DeleteStatus(r) != 404
      && ((!faults.userRead && userId in users && !faults.permRead && userId in perms
             && perms[userId].isAdmin && faults.adminCount) ==> r == Failed(LastAdminError))
      && (r == ReturnedNone <==>
            !faults.userRead && userId in users && !faults.permRead && userId in perms
            && perms[userId].isAdmin && !faults.adminCount && |ActiveAdmins(perms)| > 1)
  {
  }

  /**
   * Two concrete states that show the two discrepancies: once the permission
   * read and the count work, deleting one of two active admins answers None
   * (HTTP 500) and deletes nothing, where the documented behaviour deletes
   * (as deployed, the permission read fails first); deleting an unknown user
   * answers
   * UserRecordReadError (HTTP 500) where UserNotFoundError (HTTP 404) is meant.
   */
  lemma DeleteUserCounterexamples()
    ensures var users := map["a" := UserRecord("alice"), "b" := UserRecord("bob")];
      var perms := map["a" := Perm(true, true), "b" := Perm(true, true)];
      var none := Faults(false, false, false, false);
      && DeleteUserOutcome(users, perms, "a", AsDeployed(false)) == Failed(UserPermReadError)
      && DeleteUserOutcome(users, perms, "a", none) == ReturnedNone
      && DeleteStatus(DeleteUserOutcome(users, perms, "a", none)) == 500
      && DeleteUserIntendedOutcome(users, perms, "a", none) == ReturnedTrue
      && DeleteUserOutcome(users, perms, "c", none) == Failed(UserRecordReadError)
      && DeleteStatus(DeleteUserOutcome(users, perms, "c", none)) == 500
      && DeleteStatus(DeleteUserIntendedOutcome(users, perms, "c", none)) == 404
  {
    var perms := map["a" := Perm(true, true), "b" := Perm(true, true)];
    assert "a" in ActiveAdmins(perms) && "b" in ActiveAdmins(perms);
    assert {"a", "b"} <= ActiveAdmins(perms);
    assert |{"a", "b"}| == 2;
    SubsetCardinality({"a", "b"}, ActiveAdmins(perms));
  }

  /**
   * As deployed, `delete_user` never deletes anyone: an unknown user (or a
   * failed user read) gives UserRecordReadError, every existing user gives
   * UserPermReadError, and the endpoint answers 500 either way.
   */
  lemma DeleteUserDeployed(users: map<UserId, UserRecord>, perms: map<UserId, Perm>, userId: UserId, userRead: bool)
    ensures var r := DeleteUserOutcome(users, perms, userId, AsDeployed(userRead));
      && r != ReturnedTrue && r != ReturnedNone
      && (r == Failed(UserPermReadError) <==> !userRead && userId in users)
      && (r == Failed(UserRecordReadError) <==> userRead || userId !in users)
      && DeleteStatus(r) == 500
  {
  }

  lemma SubsetCardinality<T>(a: set<T>, b: set<T>)
    requires a <= b
    ensures |a| <= |b|
  {
    assert b == a + (b - a);
  }

  /**
   * The last-admin guard holds for the documented behaviour: a successful
   * deletion never leaves the system without an active admin when it had
   * one, and a user with an active admin record is deleted only when
   * another active admin remains.
   */
  lemma DeleteKeepsAnAdmin(users: map<UserId, UserRecord>, perms: map<UserId, Perm>, userId: UserId, faults: Faults)
    requires DeleteUserIntendedOutcome(users, perms, userId, faults) == ReturnedTrue
    ensures ActiveAdmins(perms) != {} ==> ActiveAdmins(perms - {userId}) != {}
    ensures userId in ActiveAdmins(perms) ==> |ActiveAdmins(perms - {userId})| >= 1
  {
    ActiveAdminsWithout(perms, userId);
    if userId in ActiveAdmins(perms) {
      assert |ActiveAdmins(perms)| > 1;
    } else if ActiveAdmins(perms) != {} {
      var a :| a in ActiveAdmins(perms);
      assert a in ActiveAdmins(perms - {userId});
    }
  }
}

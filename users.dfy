/**
 * The user app of the Django back end: the role-based action list of
 * `User.can_access`, the user list each role may see, and the login view's
 * lockout of an account after repeated wrong passwords.
 */
module Users {
  import opened Common
  import opened HrRecords

  // ---------------------------------------------------------------------
  // can_access
  // ---------------------------------------------------------------------

  const ViewAll := "view_all"
  const CreateAll := "create_all"
  const UpdateAll := "update_all"
  const DeleteAll := "delete_all"
  const ApproveLeaves := "approve_leaves"

  /** The action list of each role; a role missing from the table gets the empty list. */
  function Permissions(role: string): seq<string> {
    if role == RoleAdmin then [ViewAll, CreateAll, UpdateAll, DeleteAll]
    else if role == RoleEmployee then ["view_own", "create_own", "update_own"]
    else if role == RoleHrOfficer then ["view_employees", "update_employees", ApproveLeaves]
    else if role == RolePayrollOfficer then ["view_payroll", "generate_payslips", ApproveLeaves]
    else []
  }

  /** One of the four roles the user model knows. */
  predicate KnownRole(role: string) {
    role == RoleAdmin || role == RoleEmployee || role == RoleHrOfficer || role == RolePayrollOfficer
  }

  /**
   * `User.can_access(resource, action)`: the action is in the role's list.
   * The resource plays no part, and a role outside the table is refused everything.
   */
  function CanAccess(u: UserRecord, resource: string, action: string): (ok: bool)
    ensures ok ==> KnownRole(u.role)
    ensures ok <==> exists i :: 0 <= i < |Permissions(u.role)| && Permissions(u.role)[i] == action
  {
    action in Permissions(u.role)
  }

  /** Two requests that differ only in the resource get the same answer. */
  lemma CanAccessIgnoresResource(u: UserRecord, r1: string, r2: string, action: string)
    ensures CanAccess(u, r1, action) == CanAccess(u, r2, action)
  {
  }

  /** Only an admin holds an action ending in `_all`. */
  lemma OnlyAdminHoldsAll(u: UserRecord, resource: string, action: string)
    requires action in {ViewAll, CreateAll, UpdateAll, DeleteAll}
    ensures CanAccess(u, resource, action) <==> u.role == RoleAdmin
  {
  }

  /** Leave approval belongs to the HR and payroll officers, and to no one else, not even admin. */
  lemma ApproveLeavesHolders(u: UserRecord, resource: string)
    ensures CanAccess(u, resource, ApproveLeaves) <==> u.role == RoleHrOfficer || u.role == RolePayrollOfficer
  {
  }

  // ---------------------------------------------------------------------
  // UserViewSet.get_queryset
  // ---------------------------------------------------------------------

  /** `User.objects.filter(id=…)`, in table order. */
  function WithId(users: seq<UserRecord>, id: int): (r: seq<UserRecord>)
    ensures |r| <= |users|
    ensures forall u :: u in r <==> u in users && u.id == id
  {
    if users == [] then []
    else WithId(users[..|users| - 1], id)
         + (if users[|users| - 1].id == id then [users[|users| - 1]] else [])
  }

  /** The users `requester` may list: admin everyone, the two officers the employees, anyone else themselves. */
  function VisibleUsers(requester: UserRecord, users: seq<UserRecord>): (r: seq<UserRecord>)
    ensures requester.role == RoleAdmin ==> r == users
    ensures requester.role == RoleHrOfficer || requester.role == RolePayrollOfficer ==>
              forall u :: u in r <==> u in users && u.role == RoleEmployee
    ensures !(requester.role in {RoleAdmin, RoleHrOfficer, RolePayrollOfficer}) ==>
              forall u :: u in r <==> u in users && u.id == requester.id
  {
    if requester.role == RoleAdmin then users
    else if requester.role == RoleHrOfficer || requester.role == RolePayrollOfficer then WithRoleEmployee(users)
    else WithId(users, requester.id)
  }

  /** Whatever anyone may list, an admin may list too, and nobody but an admin sees a user of another role than employee except themselves. */
  lemma VisibilityBounds(requester: UserRecord, admin: UserRecord, users: seq<UserRecord>, u: UserRecord)
    requires admin.role == RoleAdmin
    requires u in VisibleUsers(requester, users)
    ensures u in VisibleUsers(admin, users)
    ensures requester.role != RoleAdmin ==> u.role == RoleEmployee || u.id == requester.id
  {
  }

  // ---------------------------------------------------------------------
  // UserViewSet.login
  // ---------------------------------------------------------------------

  /** Wrong passwords that lock the account, and how long the lock lasts, in seconds. */
  const MaxFailedAttempts := 5
  const LockSeconds := 30 * 60

  /**
   * The login-related part of a user row. `secret` stands for the stored
   * password hash: `check_password` accepts exactly the password it was made from.
   */
  datatype Account = Account(id: int, secret: string, failedAttempts: int, lockedUntil: Option<int>)

  /** A `LoginAudit` row: the user (none for an unknown e-mail), success, and the failure reason. */
  datatype Audit = Audit(user: Option<int>, success: bool, reason: Option<string>)

  /**
   * `LoginAudit.objects.create(...)`. The `user` column is a foreign key
   * declared without `null=True`, so the database refuses a row without a
   * user (an `IntegrityError`). `nullableUser` says whether the column
   * allows it: false for the schema as declared, true for the schema the
   * unknown e-mail branch of the login view evidently expects.
   */
  function InsertAudit(log: seq<Audit>, row: Audit, nullableUser: bool): (r: Option<seq<Audit>>)
    ensures r.None? <==> row.user.None? && !nullableUser
    ensures r.Some? ==> r.value == log + [row]
  {
    if row.user.None? && !nullableUser then None else Some(log + [row])
  }

  /** As declared, the audit of an unknown e-mail cannot be written. */
  lemma UserlessAuditRefused(log: seq<Audit>)
    ensures InsertAudit(log, Audit(None, false, Some(ReasonUserNotFound)), false).None?
  {
  }

  /** With a nullable column, it is appended to the log like any other audit. */
  lemma UserlessAuditRecorded(log: seq<Audit>)
    ensures InsertAudit(log, Audit(None, false, Some(ReasonUserNotFound)), true)
            == Some(log + [Audit(None, false, Some(ReasonUserNotFound))])
  {
  }

  const ReasonUserNotFound := "User not found"
  const ReasonInvalidPassword := "Invalid password"

  /**
   * The login view's answers. `UnknownUser` is the 401 the unknown e-mail
   * branch means to give; `ServerError` is the uncaught `IntegrityError`
   * it ends in when its user-less audit row is refused.
   */
  datatype LoginOutcome = BadRequest | UnknownUser | ServerError | WrongPassword | AccountLocked | LoggedIn(userId: int)

  function HttpStatus(o: LoginOutcome): int {
    match o
    case BadRequest => 400
    case UnknownUser => 401
    case ServerError => 500
    case WrongPassword => 401
    case AccountLocked => 403
    case LoggedIn(_) => 200
  }

  /** The lock is set and still in the future. */
  predicate IsLocked(a: Account, now: int) {
    a.lockedUntil.Some? && a.lockedUntil.value > now
  }

  /**
   * One login attempt on a known account, as the new account and the answer:
   * a live lock answers 403 and changes nothing; a wrong password adds one
   * failure and, from the fifth on, locks for thirty minutes; the right one
   * clears both.
   */
  function Attempt(a: Account, password: string, now: int): (r: (Account, LoginOutcome))
    ensures r.0.id == a.id && r.0.secret == a.secret
  {
    if IsLocked(a, now) then (a, AccountLocked)
    else if password != a.secret then
      var failed := a.failedAttempts + 1;
      (a.(failedAttempts := failed,
          lockedUntil := if failed >= MaxFailedAttempts then Some(now + LockSeconds) else a.lockedUntil),
       WrongPassword)
    else (a.(failedAttempts := 0, lockedUntil := None), LoggedIn(a.id))
  }

  /** While locked, neither a right nor a wrong password changes anything. */
  lemma LockedChangesNothing(a: Account, password: string, now: int)
    requires IsLocked(a, now)
    ensures Attempt(a, password, now) == (a, AccountLocked)
  {
  }

  /** An unlocked account with a wrong password gets exactly one more failure and a 401. */
  lemma WrongPasswordCounts(a: Account, password: string, now: int)
    requires !IsLocked(a, now) && password != a.secret
    ensures Attempt(a, password, now).0.failedAttempts == a.failedAttempts + 1
    ensures HttpStatus(Attempt(a, password, now).1) == 401
    ensures a.failedAttempts + 1 >= MaxFailedAttempts <==> Attempt(a, password, now).0.lockedUntil == Some(now + LockSeconds)
  {
    assert a.lockedUntil == Some(now + LockSeconds) ==> IsLocked(a, now);
  }

  /** The right password on an unlocked account logs in and clears the counter and the lock. */
  lemma RightPasswordResets(a: Account, now: int)
    requires !IsLocked(a, now)
    ensures Attempt(a, a.secret, now) == (a.(failedAttempts := 0, lockedUntil := None), LoggedIn(a.id))
  {
  }

  /**
   * The counter survives the end of a lock: once five failures have
   * accrued, the first wrong password after the lock ends locks the
   * account again for a full thirty minutes.
   */
  lemma RelockAfterExpiry(a: Account, password: string, now: int)
    requires a.failedAttempts >= MaxFailedAttempts - 1 && !IsLocked(a, now) && password != a.secret
    ensures var (b, o) := Attempt(a, password, now);
            o == WrongPassword && IsLocked(b, now) && b.lockedUntil == Some(now + LockSeconds)
  {
  }

  /** Replays wrong passwords, each as (password, time), against one account. */
  function Replay(a: Account, attempts: seq<(string, int)>): Account
  {
    if attempts == [] then a
    else Attempt(Replay(a, attempts[..|attempts| - 1]), attempts[|attempts| - 1].0, attempts[|attempts| - 1].1).0
  }

  /**
   * From a clean account, wrong passwords, whenever they come, count up
   * one by one without a lock until the fifth, which locks the account for
   * thirty minutes from its own time.
   */
  lemma {:induction false} FiveWrongPasswordsLock(a: Account, attempts: seq<(string, int)>)
    requires a.failedAttempts == 0 && a.lockedUntil == None
    requires |attempts| <= MaxFailedAttempts
    requires forall i :: 0 <= i < |attempts| ==> attempts[i].0 != a.secret
    ensures Replay(a, attempts).failedAttempts == |attempts|
    ensures Replay(a, attempts).secret == a.secret
    ensures |attempts| < MaxFailedAttempts ==> Replay(a, attempts).lockedUntil == None
    ensures |attempts| == MaxFailedAttempts ==>
              Replay(a, attempts).lockedUntil == Some(attempts[|attempts| - 1].1 + LockSeconds)
  {
    if attempts != [] {
      var prefix := attempts[..|attempts| - 1];
      FiveWrongPasswordsLock(a, prefix);
    }
  }

  /**
   * The accounts, keyed by e-mail (the view looks a user up by e-mail, so
   * the model keeps one account per address), and the audit log.
   */
  class LoginService {
    /** Whether the audit table accepts a row without a user (see `InsertAudit`). */
    const nullableAuditUser: bool
    var accounts: map<string, Account>
    var audits: seq<Audit>

    constructor(accounts: map<string, Account>, nullableAuditUser: bool)
      ensures this.accounts == accounts && audits == [] && this.nullableAuditUser == nullableAuditUser
    {
      this.accounts := accounts;
      this.nullableAuditUser := nullableAuditUser;
      audits := [];
    }

    /**
     * `POST login`. Both fields are required and lose surrounding white
     * space first; a blank one is a 400. An unknown address tries to write a
     * failure audit without a user: as the table is declared the insert is
     * refused and the request fails with a server error, changing nothing;
     * with a nullable column the audit is written and the answer is 401. A
     * locked account answers 403 without an audit; otherwise the attempt is
     * applied, saved and audited.
     */
    method Login(email: Option<string>, password: Option<string>, now: int) returns (outcome: LoginOutcome)
      modifies this
      ensures email.None? || password.None? || Trim(email.value, Python) == "" || Trim(password.value, Python) == "" ==>
                outcome == BadRequest && accounts == old(accounts) && audits == old(audits)
      ensures outcome != BadRequest ==> email.Some? && password.Some?
      ensures outcome != BadRequest && Trim(email.value, Python) !in old(accounts) && !nullableAuditUser ==>
                outcome == ServerError && accounts == old(accounts) && audits == old(audits)
      ensures outcome != BadRequest && Trim(email.value, Python) !in old(accounts) && nullableAuditUser ==>
                outcome == UnknownUser && accounts == old(accounts)
                && audits == old(audits) + [Audit(None, false, Some(ReasonUserNotFound))]
      ensures outcome != BadRequest && Trim(email.value, Python) in old(accounts) ==>
                var a := old(accounts)[Trim(email.value, Python)];
                var (b, o) := Attempt(a, Trim(password.value, Python), now);
                outcome == o && accounts == old(accounts)[Trim(email.value, Python) := b]
                && audits == old(audits) + (match o
                                            case AccountLocked => []
                                            case WrongPassword => [Audit(Some(a.id), false, Some(ReasonInvalidPassword))]
                                            case _ => [Audit(Some(a.id), true, None)])
    {
      if email.None? || password.None? {
        return BadRequest;
      }
      var address := Trim(email.value, Python);
      var secret := Trim(password.value, Python);
      if address == "" || secret == "" {
        return BadRequest;
      }
      if address !in accounts {
        var written := InsertAudit(audits, Audit(None, false, Some(ReasonUserNotFound)), nullableAuditUser);
        if written.None? {
          return ServerError;
        }
        audits := written.value;
        return UnknownUser;
      }
      var a := accounts[address];
      if a.lockedUntil.Some? && a.lockedUntil.value > now {
        return AccountLocked;
      }
      if secret != a.secret {
        a := a.(failedAttempts := a.failedAttempts + 1);
        if a.failedAttempts >= MaxFailedAttempts {
          a := a.(lockedUntil := Some(now + LockSeconds));
        }
        accounts := accounts[address := a];
        audits := audits + [Audit(Some(a.id), false, Some(ReasonInvalidPassword))];
        return WrongPassword;
      }
      a := a.(failedAttempts := 0, lockedUntil := None);
      accounts := accounts[address := a];
      audits := audits + [Audit(Some(a.id), true, None)];
      return LoggedIn(a.id);
    }
  }
}

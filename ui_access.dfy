/**
 * Accounts and access on the front ends: the sign-up form of the second
 * front end (`Prod/src/components/auth/RegisterPage.tsx`), its route guard
 * (`Prod/src/components/ProtectedRoute.tsx`), and the two user-settings
 * tables of the first front end (`src/components/UserSettings.jsx`,
 * `src/components/profile/UserSettings.jsx`).
 */
module RegisterUi {
  import opened Common

  datatype SignUpForm = SignUpForm(username: string, email: string, password: string, passwordConfirm: string,
                                   firstName: string, lastName: string, phone: string, department: string,
                                   designation: string)

  /** What `handleSubmit` can refuse, in the order it checks. */
  datatype FormError = Mismatch | TooShort | MissingIdentity

  function Message(e: FormError): string {
    match e
    case Mismatch => "Passwords don't match"
    case TooShort => "Password must be at least 8 characters"
    case MissingIdentity => "Username and email are required"
  }

  /**
   * The checks before the server is asked: the two passwords must agree,
   * then the password must have at least 8 UTF-16 code units, then a
   * username and an email must be given.
   */
  function Validate(f: SignUpForm): (e: Option<FormError>)
    ensures e == Some(Mismatch) <==> f.password != f.passwordConfirm
    ensures e == Some(TooShort) <==> f.password == f.passwordConfirm && Utf16Length(f.password) < 8
    ensures e == Some(MissingIdentity) <==>
              f.password == f.passwordConfirm && Utf16Length(f.password) >= 8 && (f.username == "" || f.email == "")
    ensures e.None? <==>
              f.password == f.passwordConfirm && Utf16Length(f.password) >= 8 && f.username != "" && f.email != ""
  {
    if f.password != f.passwordConfirm then Some(Mismatch)
    else if Utf16Length(f.password) < 8 then Some(TooShort)
    else if f.username == "" || f.email == "" then Some(MissingIdentity)
    else None
  }

  /** A short password that was typed twice alike is reported as short, even without a username. */
  lemma ShortBeforeMissing(f: SignUpForm)
    requires f.password == f.passwordConfirm && Utf16Length(f.password) < 8 && f.username == ""
    ensures Validate(f) == Some(TooShort)
  {
  }

  /**
   * The browser's own checks, which run before `handleSubmit` and stop the
   * submit event when they fail: first and last name, username, email and
   * both passwords are `required`, both passwords have `minLength={8}`
   * (counted in UTF-16 code units), and the email must pass the browser's
   * `type="email"` syntax check, given here as `emailSyntaxOk`.
   */
  predicate BrowserAccepts(f: SignUpForm, emailSyntaxOk: bool) {
    f.firstName != "" && f.lastName != "" && f.username != "" && f.email != "" && emailSyntaxOk
    && Utf16Length(f.password) >= 8 && Utf16Length(f.passwordConfirm) >= 8
  }

  /**
   * Once the browser lets a form through, the only check of `handleSubmit`
   * that can still fail is the comparison of the two passwords.
   */
  lemma BrowserLeavesOnlyMismatch(f: SignUpForm, emailSyntaxOk: bool)
    requires BrowserAccepts(f, emailSyntaxOk)
    ensures Validate(f) != Some(TooShort) && Validate(f) != Some(MissingIdentity)
    ensures Validate(f).None? <==> f.password == f.passwordConfirm
  {
  }

  /** The name handed on after a successful sign-up: first and last name, trimmed. */
  function FullName(f: SignUpForm): (name: string)
    ensures f.firstName == "" && f.lastName == "" ==> name == ""
  {
    Trim(f.firstName + " " + f.lastName, JavaScript)
  }

  /** What the parent is told about the new account. */
  datatype Registered = Registered(fullName: string, email: string)

  /** What the server answered: success, or an error whose message may be empty. */
  datatype Answer = Accepted | Refused(message: string)

  class RegisterPage {
    var formData: SignUpForm
    var error: string
    var loading: bool

    constructor()
      ensures formData == SignUpForm("", "", "", "", "", "", "", "", "") && error == "" && !loading
    {
      formData := SignUpForm("", "", "", "", "", "", "", "", "");
      error := "";
      loading := false;
    }

    /**
     * Pressing the submit button, given the outcome of the browser's email
     * syntax check and the server's answer. A form the browser refuses never
     * reaches `handleSubmit` and changes nothing. Otherwise `handleSubmit`
     * runs: a refused form shows its message and the server is never asked;
     * an accepted sign-up hands the full name and email on; a server error
     * shows its message or a fallback. A request that was sent leaves the
     * page no longer loading.
     */
    method Submit(emailSyntaxOk: bool, answer: Answer) returns (registered: Option<Registered>)
      modifies this
      ensures formData == old(formData)
      ensures !BrowserAccepts(old(formData), emailSyntaxOk) ==>
                registered.None? && error == old(error) && loading == old(loading)
      ensures Validate(old(formData)).Some? && BrowserAccepts(old(formData), emailSyntaxOk) ==>
                error == Message(Validate(old(formData)).value) && registered.None? && loading == old(loading)
      ensures BrowserAccepts(old(formData), emailSyntaxOk) && Validate(old(formData)).None? ==> !loading
      ensures BrowserAccepts(old(formData), emailSyntaxOk) && Validate(old(formData)).None? && answer.Accepted? ==>
                error == "" && registered == Some(Registered(FullName(old(formData)), old(formData).email))
      ensures BrowserAccepts(old(formData), emailSyntaxOk) && Validate(old(formData)).None? && answer.Refused? ==>
                registered.None?
                && error == (if answer.message != "" then answer.message else "Registration failed. Please try again.")
      ensures registered.Some? <==>
                BrowserAccepts(old(formData), emailSyntaxOk) && Validate(old(formData)).None? && answer.Accepted?
    {
      if !BrowserAccepts(formData, emailSyntaxOk) {
        return None;
      }
      error := "";
      var problem := Validate(formData);
      if problem.Some? {
        error := Message(problem.value);
        return None;
      }
      loading := true;
      match answer {
        case Accepted =>
          registered := Some(Registered(FullName(formData), formData.email));
        case Refused(message) =>
          error := if message != "" then message else "Registration failed. Please try again.";
          registered := None;
      }
      loading := false;
    }
  }
}

/** The route guard of the second front end. */
module RouteGuard {
  import opened Common

  datatype Decision = RenderChildren | RedirectToLogin | RedirectToUnauthorized

  /**
   * `ProtectedRoute`: a signed-out visitor goes to the login page; a route
   * with a role list sends a stored user whose role is not in it to the
   * unauthorized page; everything else renders. A route with an empty list
   * admits no stored user, and a signed-in visitor with no stored user passes.
   */
  function Decide(isAuthenticated: bool, currentUserRole: Option<string>, allowedRoles: Option<seq<string>>): (d: Decision)
    ensures d == RedirectToLogin <==> !isAuthenticated
    ensures d == RedirectToUnauthorized <==>
              isAuthenticated && allowedRoles.Some? && currentUserRole.Some? && currentUserRole.value !in allowedRoles.value
    ensures d == RenderChildren <==>
              isAuthenticated && (allowedRoles.None? || currentUserRole.None? || currentUserRole.value in allowedRoles.value)
  {
    if !isAuthenticated then RedirectToLogin
    else if allowedRoles.Some? && currentUserRole.Some? && currentUserRole.value !in allowedRoles.value
    then RedirectToUnauthorized
    else RenderChildren
  }

  /** Widening a route's role list never turns away a visitor it let in. */
  lemma WiderListAdmitsMore(isAuthenticated: bool, role: Option<string>, narrow: seq<string>, wide: seq<string>)
    requires forall r :: r in narrow ==> r in wide
    requires Decide(isAuthenticated, role, Some(narrow)) == RenderChildren
    ensures Decide(isAuthenticated, role, Some(wide)) == RenderChildren
  {
  }
}

/** The user-settings tables. */
module UserAdminUi {
  import opened Common

  const Roles := ["Employee", "HR Officer", "Payroll Officer", "Administrator"]

  datatype User = User(id: string, userName: string, loginId: string, email: string, role: string)

  /** `users.filter(user => user.id !== id)`. */
  function RemoveId(users: seq<User>, id: string): (r: seq<User>)
    ensures |r| <= |users|
    ensures forall u :: u in r <==> u in users && u.id != id
  {
    Keep(users, (u: User) => u.id != id)
  }

  /** Deleting twice is deleting once. */
  lemma RemoveIdIdempotent(users: seq<User>, id: string)
    ensures RemoveId(RemoveId(users, id), id) == RemoveId(users, id)
  {
    var once := RemoveId(users, id);
    assert forall k :: 0 <= k < |once| ==> once[k] in once;
    KeepAll(once, (u: User) => u.id != id);
  }

  /** `users.map(user => user.id === id ? { ...user, role: newRole } : user)`. */
  function SetRole(users: seq<User>, id: string, newRole: string): (r: seq<User>)
    ensures |r| == |users|
    ensures forall k :: 0 <= k < |r| ==> r[k] == if users[k].id == id then users[k].(role := newRole) else users[k]
  {
    seq(|users|, k requires 0 <= k < |users| => if users[k].id == id then users[k].(role := newRole) else users[k])
  }

  /** Changing the role of the users being deleted makes no difference to the table left after the deletion. */
  lemma {:induction false} SetRoleThenRemove(users: seq<User>, id: string, newRole: string)
    ensures RemoveId(SetRole(users, id, newRole), id) == RemoveId(users, id)
  {
    if users != [] {
      var r := SetRole(users, id, newRole);
      assert r[1..] == SetRole(users[1..], id, newRole);
      SetRoleThenRemove(users[1..], id, newRole);
    }
  }

  const BlankUser := User("", "", "", "", "Employee")

  /** The table with the add form (`src/components/UserSettings.jsx`). */
  class UserSettings {
    var users: seq<User>
    var newUser: User

    constructor(users: seq<User>)
      ensures this.users == users && newUser == BlankUser
    {
      this.users := users;
      newUser := BlankUser;
    }

    method EditNewUser(u: User)
      modifies this
      ensures newUser == u && users == old(users)
    {
      newUser := u;
    }

    /**
     * `handleAddUser`, with `now` the clock in milliseconds: a user name, a
     * login id and an email are needed; the form's user is appended with
     * the clock's digits as id and the form is reset to an empty Employee.
     * Otherwise nothing happens.
     */
    method AddUser(now: nat) returns (added: bool)
      modifies this
      ensures added <==> old(newUser).userName != "" && old(newUser).loginId != "" && old(newUser).email != ""
      ensures added ==> users == old(users) + [old(newUser).(id := NatToString(now))] && newUser == BlankUser
      ensures !added ==> users == old(users) && newUser == old(newUser)
    {
      if newUser.userName == "" || newUser.loginId == "" || newUser.email == "" {
        return false;
      }
      users := users + [newUser.(id := NatToString(now))];
      newUser := BlankUser;
      added := true;
    }

    /** `handleDeleteUser`: every user with that id goes; the others stay, in order. */
    method DeleteUser(id: string)
      modifies this
      ensures users == RemoveId(old(users), id) && newUser == old(newUser)
    {
      users := RemoveId(users, id);
    }

    /** `handleRoleChange`: the users with that id get the new role; nobody else changes. */
    method ChangeRole(id: string, newRole: string)
      modifies this
      ensures users == SetRole(old(users), id, newRole) && newUser == old(newUser)
    {
      users := SetRole(users, id, newRole);
    }
  }

  /** The table without the add form (`src/components/profile/UserSettings.jsx`): deleting asks first. */
  class UserAccessSettings {
    var users: seq<User>

    constructor(users: seq<User>)
      ensures this.users == users
    {
      this.users := users;
    }

    /** `handleDeleteUser`, with the answer to the confirmation dialog. */
    method DeleteUser(id: string, confirmed: bool)
      modifies this
      ensures users == if confirmed then RemoveId(old(users), id) else old(users)
    {
      if confirmed {
        users := RemoveId(users, id);
      }
    }

    method ChangeRole(id: string, newRole: string)
      modifies this
      ensures users == SetRole(old(users), id, newRole)
    {
      users := SetRole(users, id, newRole);
    }
  }
}

/**
 * The accounts app of the second Django back end: the displayed full name,
 * and self-registration (eight-character passwords, a confirmation, unique
 * username and e-mail, and every new user an active employee).
 */
module WorkzenAccounts {
  import opened Common

  const RoleEmployee := "Employee"
  const StatusActive := "Active"
  const MinPasswordLength := 8

  /** The user columns registration fills. */
  datatype WorkzenUser = WorkzenUser(
    username: string,
    email: string,
    password: string,
    firstName: string,
    lastName: string,
    phone: string,
    department: string,
    designation: string,
    role: string,
    status: string)

  /** `get_full_name`: "first last" without surrounding white space, or the username when that leaves nothing. */
  function FullName(firstName: string, lastName: string, username: string): string {
    var joined := Trim(firstName + " " + lastName, Python);
    if joined == "" then username else joined
  }

  lemma {:induction false} AllSpaceAppend(a: string, b: string)
    ensures AllSpace(a + b, Python) <==> AllSpace(a, Python) && AllSpace(b, Python)
  {
    if AllSpace(a + b, Python) {
      forall i | 0 <= i < |a| ensures IsSpace(a[i], Python) { assert (a + b)[i] == a[i]; }
      forall i | 0 <= i < |b| ensures IsSpace(b[i], Python) { assert (a + b)[|a| + i] == b[i]; }
    }
  }

  /**
   * The username shows exactly when both names are blank; otherwise the
   * name shown is non-empty and neither starts nor ends with white space.
   */
  lemma FullNameFallback(firstName: string, lastName: string, username: string)
    ensures AllSpace(firstName, Python) && AllSpace(lastName, Python) ==> FullName(firstName, lastName, username) == username
    ensures !(AllSpace(firstName, Python) && AllSpace(lastName, Python)) ==>
              var n := FullName(firstName, lastName, username);
              n != "" && !IsSpace(n[0], Python) && !IsSpace(n[|n| - 1], Python)
  {
    var joined := firstName + " " + lastName;
    AllSpaceAppend(firstName + " ", lastName);
    AllSpaceAppend(firstName, " ");
    assert AllSpace(" ", Python);
    TrimShape(joined, Python);
  }

  /**
   * The request body. Absent optional keys are `None`; username and the
   * two passwords are required, so a request without them never reaches
   * these rules. Every field is a DRF character field, which strips
   * surrounding white space from the value before any check sees it.
   */
  datatype RegisterInput = RegisterInput(
    username: string,
    email: Option<string>,
    password: string,
    passwordConfirm: string,
    firstName: Option<string>,
    lastName: Option<string>,
    phone: Option<string>,
    department: Option<string>,
    designation: Option<string>)

  /** The errors a refused request reports, one flag per message. */
  datatype RegisterErrors = RegisterErrors(usernameBlank: bool, usernameTaken: bool, emailTaken: bool,
                                           passwordTooShort: bool, passwordMismatch: bool)
  {
    predicate Accepted() {
      !usernameBlank && !usernameTaken && !emailTaken && !passwordTooShort && !passwordMismatch
    }
  }

  predicate UsernameExists(users: seq<WorkzenUser>, username: string) {
    exists i :: 0 <= i < |users| && users[i].username == username
  }

  predicate EmailExists(users: seq<WorkzenUser>, email: string) {
    exists i :: 0 <= i < |users| && users[i].email == email
  }

  /**
   * The field checks, all reported together: the stripped username must not
   * be blank (the model column does not allow it) and, when it is not, must
   * not be taken; a sent e-mail must not be taken; the password must keep
   * eight characters after stripping. Only when they all pass does
   * `validate` compare the two passwords. A sent blank e-mail clashes with
   * any user whose e-mail is blank.
   */
  function ValidateRegister(inp: RegisterInput, users: seq<WorkzenUser>): (errors: RegisterErrors)
    ensures errors.usernameBlank <==> Trim(inp.username, Python) == ""
    ensures errors.usernameTaken <==> Trim(inp.username, Python) != "" && UsernameExists(users, Trim(inp.username, Python))
    ensures errors.emailTaken <==> inp.email.Some? && EmailExists(users, Trim(inp.email.value, Python))
    ensures errors.passwordTooShort <==> |Trim(inp.password, Python)| < MinPasswordLength
    ensures errors.passwordMismatch <==>
              !errors.usernameBlank && !errors.usernameTaken && !errors.emailTaken && !errors.passwordTooShort
              && Trim(inp.password, Python) != Trim(inp.passwordConfirm, Python)
  {
    var username := Trim(inp.username, Python);
    var usernameBlank := username == "";
    var usernameTaken := !usernameBlank && UsernameExists(users, username);
    var emailTaken := inp.email.Some? && EmailExists(users, Trim(inp.email.value, Python));
    var tooShort := |Trim(inp.password, Python)| < MinPasswordLength;
    var fieldsOk := !usernameBlank && !usernameTaken && !emailTaken && !tooShort;
    RegisterErrors(usernameBlank, usernameTaken, emailTaken, tooShort,
                   fieldsOk && Trim(inp.password, Python) != Trim(inp.passwordConfirm, Python))
  }

  /** An optional field as stored: stripped when sent, blank when not. */
  function TrimmedOrEmpty(o: Option<string>): (r: string)
    ensures o.None? ==> r == ""
    ensures o.Some? ==> r == Trim(o.value, Python)
  {
    if o.Some? then Trim(o.value, Python) else ""
  }

  /**
   * `RegisterSerializer.create`: the confirmation dropped, every field as
   * the serializer stripped it, missing optional fields blank, role
   * Employee, status Active.
   */
  function CreateUser(inp: RegisterInput): (u: WorkzenUser)
    ensures u.role == RoleEmployee && u.status == StatusActive
    ensures u.username == Trim(inp.username, Python) && u.password == Trim(inp.password, Python)
    ensures u.email == TrimmedOrEmpty(inp.email)
    ensures u.firstName == TrimmedOrEmpty(inp.firstName) && u.lastName == TrimmedOrEmpty(inp.lastName)
    ensures u.phone == TrimmedOrEmpty(inp.phone)
    ensures u.department == TrimmedOrEmpty(inp.department) && u.designation == TrimmedOrEmpty(inp.designation)
  {
    WorkzenUser(Trim(inp.username, Python), TrimmedOrEmpty(inp.email), Trim(inp.password, Python),
                TrimmedOrEmpty(inp.firstName), TrimmedOrEmpty(inp.lastName), TrimmedOrEmpty(inp.phone),
                TrimmedOrEmpty(inp.department), TrimmedOrEmpty(inp.designation), RoleEmployee, StatusActive)
  }

  /** No two users share a username. */
  predicate UniqueUsernames(users: seq<WorkzenUser>) {
    forall i, j :: 0 <= i < j < |users| ==> users[i].username != users[j].username
  }

  /**
   * An accepted registration keeps usernames unique, and the same username
   * registering again, with or without surrounding white space, is refused.
   */
  lemma RegistrationKeepsUsernamesUnique(users: seq<WorkzenUser>, inp: RegisterInput, again: RegisterInput)
    requires UniqueUsernames(users)
    requires ValidateRegister(inp, users).Accepted()
    requires Trim(again.username, Python) == Trim(inp.username, Python)
    ensures UniqueUsernames(users + [CreateUser(inp)])
    ensures ValidateRegister(again, users + [CreateUser(inp)]).usernameTaken
  {
    var u := CreateUser(inp);
    var after := users + [u];
    assert !UsernameExists(users, Trim(inp.username, Python));
    forall i, j | 0 <= i < j < |after| ensures after[i].username != after[j].username {
      if j == |users| {
        assert after[i] == users[i];
      } else {
        assert after[i] == users[i] && after[j] == users[j];
      }
    }
    assert after[|users|].username == Trim(again.username, Python);
  }

  /** An accepted registration had a password of at least eight characters, confirmed. */
  lemma AcceptedPasswordsAreLongAndConfirmed(inp: RegisterInput, users: seq<WorkzenUser>)
    requires ValidateRegister(inp, users).Accepted()
    ensures |CreateUser(inp).password| >= MinPasswordLength
    ensures Trim(inp.password, Python) == Trim(inp.passwordConfirm, Python)
  {
  }

  /** The user table, which `POST register` inserts into. */
  class UserTable {
    var users: seq<WorkzenUser>

    /** Usernames are unique (the column's unique constraint). */
    predicate Valid()
      reads this
    {
      UniqueUsernames(users)
    }

    constructor()
      ensures Valid() && users == []
    {
      users := [];
    }

    /**
     * `POST register`: a registration the serializer accepts inserts exactly
     * one user, built by `create`, at the end; a refused one inserts nothing.
     */
    method Register(inp: RegisterInput) returns (errors: RegisterErrors)
      requires Valid()
      modifies this
      ensures Valid()
      ensures errors == ValidateRegister(inp, old(users))
      ensures errors.Accepted() ==> users == old(users) + [CreateUser(inp)]
      ensures !errors.Accepted() ==> users == old(users)
    {
      errors := ValidateRegister(inp, users);
      if errors.Accepted() {
        RegistrationKeepsUsernamesUnique(users, inp, inp);
        users := users + [CreateUser(inp)];
      }
    }
  }
}

/**
 * The profile pages of the web front end (`src/components/UserProfile.jsx`
 * and its successor `src/components/profile/UserProfile.jsx`, which share
 * these handlers line for line): the password reset form with its ordered
 * checks, the skill and certification lists, the edit/save/cancel dialogs,
 * the initials shown in the avatar, and who may see the salary tab.
 */
module Profile {
  import opened Common

  // ---------------------------------------------------------------------
  // Initials: name.split(" ").map(n => n[0]).join("").toUpperCase()

  /** `s.split(" ")`: the pieces between single spaces, empty ones included. */
  function SplitOnSpace(s: string): (words: seq<string>)
    ensures |words| >= 1
    ensures forall k :: 0 <= k < |words| ==> ' ' !in words[k]
  {
    if s == [] then [""]
    else if s[0] == ' ' then [""] + SplitOnSpace(s[1..])
    else
      var rest := SplitOnSpace(s[1..]);
      [[s[0]] + rest[0]] + rest[1..]
  }

  /** `words.join(" ")`. */
  function JoinWithSpace(words: seq<string>): string
    requires |words| >= 1
  {
    if |words| == 1 then words[0] else words[0] + " " + JoinWithSpace(words[1..])
  }

  /** Splitting then joining gives the text back. */
  lemma {:induction false} JoinSplit(s: string)
    ensures JoinWithSpace(SplitOnSpace(s)) == s
  {
    if s != [] {
      JoinSplit(s[1..]);
      var rest := SplitOnSpace(s[1..]);
      if s[0] == ' ' {
        assert SplitOnSpace(s)[1..] == rest;
      } else {
        var words := SplitOnSpace(s);
        assert words[1..] == rest[1..];
        if |rest| > 1 {
          assert JoinWithSpace(rest) == rest[0] + " " + JoinWithSpace(rest[1..]);
        }
      }
    }
  }

  /** A space splits the text into the words before it and the words after it. */
  lemma {:induction false} SplitAtSpace(a: string, b: string)
    ensures SplitOnSpace(a + " " + b) == SplitOnSpace(a) + SplitOnSpace(b)
  {
    if a == [] {
      assert a + " " + b == [' '] + b;
      assert (a + " " + b)[1..] == b;
    } else {
      assert (a + " " + b)[1..] == a[1..] + " " + b;
      SplitAtSpace(a[1..], b);
    }
  }

  /** `map(n => n[0]).join("")`: the first character of each word, the empty words giving nothing. */
  function FirstChars(words: seq<string>): string {
    if words == [] then ""
    else (if words[0] == [] then "" else [words[0][0]]) + FirstChars(words[1..])
  }

  lemma {:induction false} FirstCharsAppend(u: seq<string>, v: seq<string>)
    ensures FirstChars(u + v) == FirstChars(u) + FirstChars(v)
  {
    if u != [] {
      assert (u + v)[0] == u[0] && (u + v)[1..] == u[1..] + v;
      FirstCharsAppend(u[1..], v);
    } else {
      assert u + v == v;
    }
  }

  /** `getInitials` (the same arrow function on both profile pages and on the employee pages). */
  function Initials(name: string): (r: string)
    ensures |r| <= |name|
  {
    JoinSplit(name);
    FirstCharsAtMostJoined(SplitOnSpace(name));
    Upper(FirstChars(SplitOnSpace(name)))
  }

  lemma {:induction false} FirstCharsAtMostJoined(words: seq<string>)
    requires |words| >= 1
    ensures |FirstChars(words)| <= |JoinWithSpace(words)|
  {
    if |words| > 1 {
      FirstCharsAtMostJoined(words[1..]);
    }
  }

  /** The initials of "first last" are those of the first part followed by those of the second. */
  lemma InitialsOfTwoParts(a: string, b: string)
    ensures Initials(a + " " + b) == Initials(a) + Initials(b)
  {
    SplitAtSpace(a, b);
    FirstCharsAppend(SplitOnSpace(a), SplitOnSpace(b));
    var u, v := FirstChars(SplitOnSpace(a)), FirstChars(SplitOnSpace(b));
    assert Upper(u + v) == Upper(u) + Upper(v);
  }

  /** One word without spaces gives its upper-cased first character. */
  lemma InitialsOfWord(w: string)
    requires w != [] && ' ' !in w
    ensures Initials(w) == [UpperChar(w[0])]
  {
    var words := SplitOnSpace(w);
    NoSpaceIsOneWord(w);
    assert FirstChars(words) == [w[0]] + FirstChars([]);
  }

  lemma {:induction false} NoSpaceIsOneWord(w: string)
    requires ' ' !in w
    ensures SplitOnSpace(w) == [w]
  {
    if w != [] {
      assert ' ' !in w[1..] by {
        forall k | 0 <= k < |w[1..]| ensures w[1..][k] != ' ' {
          assert w[1..][k] == w[k + 1];
        }
      }
      NoSpaceIsOneWord(w[1..]);
      assert w[0] != ' ' && [w[0]] + w[1..] == w;
    }
  }

  // ---------------------------------------------------------------------
  // Who sees the salary tab

  const Administrator := "Administrator"
  const PayrollOfficer := "Payroll Officer"

  /** `canViewSalary`: Administrator or Payroll Officer, nobody else. */
  function CanViewSalary(userRole: string): (ok: bool)
    ensures ok <==> userRole in [Administrator, PayrollOfficer]
  {
    userRole == Administrator || userRole == PayrollOfficer
  }

  // ---------------------------------------------------------------------
  // Password reset

  /** The `passwordData` state. */
  datatype PasswordForm = PasswordForm(loginId: string, oldPassword: string, newPassword: string, confirmPassword: string)

  datatype PasswordField = LoginId | OldPassword | NewPassword | ConfirmPassword

  /** The reasons a reset is refused, in the order they are checked. */
  datatype ResetError = OldRequired | NewRequired | TooShort | Mismatch

  const MinPasswordLength := 8
  const OldRequiredMessage := "Old password is required"
  const NewRequiredMessage := "New password is required"
  const TooShortMessage := "Password must be at least 8 characters long"
  const MismatchMessage := "Passwords do not match"
  const ResetDoneMessage := "Password has been reset successfully! The employee will receive the new password via email."

  function Message(e: ResetError): string {
    match e
    case OldRequired => OldRequiredMessage
    case NewRequired => NewRequiredMessage
    case TooShort => TooShortMessage
    case Mismatch => MismatchMessage
  }

  /**
   * The checks of `handleResetPassword`, the first failure winning: the old
   * password (asked of everyone but an administrator), a new password, its
   * length in UTF-16 code units, its confirmation.
   */
  function ResetCheck(isAdmin: bool, f: PasswordForm): (e: Option<ResetError>)
    ensures e == Some(OldRequired) <==> !isAdmin && f.oldPassword == ""
    ensures e == Some(NewRequired) <==> (isAdmin || f.oldPassword != "") && f.newPassword == ""
    ensures e == Some(TooShort) <==>
              (isAdmin || f.oldPassword != "") && 0 < Utf16Length(f.newPassword) < MinPasswordLength
    ensures e.None? <==>
              (isAdmin || f.oldPassword != "") && Utf16Length(f.newPassword) >= MinPasswordLength
              && f.newPassword == f.confirmPassword
  {
    if !isAdmin && f.oldPassword == "" then Some(OldRequired)
    else if f.newPassword == "" then Some(NewRequired)
    else if Utf16Length(f.newPassword) < MinPasswordLength then Some(TooShort)
    else if f.newPassword != f.confirmPassword then Some(Mismatch)
    else None
  }

  /** An administrator is never asked for the old password, whatever the form holds. */
  lemma AdminSkipsOldPassword(f: PasswordForm)
    ensures ResetCheck(true, f) == ResetCheck(true, f.(oldPassword := ""))
    ensures ResetCheck(true, f) != Some(OldRequired)
  {
  }

  /** Four emoji are eight code units, so they pass the length check although they are four characters. */
  lemma AstralPasswordLongEnough()
    ensures var p := "\U{1F600}\U{1F600}\U{1F600}\U{1F600}";
            |p| == 4 && ResetCheck(true, PasswordForm("", "", p, p)).None?
  {
    var p := "\U{1F600}\U{1F600}\U{1F600}\U{1F600}";
    assert forall i :: 0 <= i < |p| ==> Astral(p[i]);
  }

  /** The password reset state of a profile page. */
  class PasswordReset {
    const isAdmin: bool
    var passwordData: PasswordForm
    var passwordError: string
    var passwordSuccess: string

    constructor(userRole: string, loginId: string)
      ensures isAdmin <==> userRole == Administrator
      ensures passwordData == PasswordForm(loginId, "", "", "")
      ensures passwordError == "" && passwordSuccess == ""
    {
      isAdmin := userRole == Administrator;
      passwordData := PasswordForm(loginId, "", "", "");
      passwordError := "";
      passwordSuccess := "";
    }

    /**
     * `handlePasswordChange`: the field takes the value, and both messages
     * are cleared. The login id input is disabled for everyone but an
     * administrator, so for them typing into it fires no change at all.
     */
    method Change(field: PasswordField, value: string)
      modifies this
      ensures field == LoginId && !isAdmin ==>
                passwordData == old(passwordData) && passwordError == old(passwordError)
                && passwordSuccess == old(passwordSuccess)
      ensures !(field == LoginId && !isAdmin) ==>
                passwordError == "" && passwordSuccess == ""
                && passwordData == match field
                                   case LoginId => old(passwordData).(loginId := value)
                                   case OldPassword => old(passwordData).(oldPassword := value)
                                   case NewPassword => old(passwordData).(newPassword := value)
                                   case ConfirmPassword => old(passwordData).(confirmPassword := value)
    {
      if field == LoginId && !isAdmin {
        return;
      }
      passwordError := "";
      passwordSuccess := "";
      match field
      case LoginId => passwordData := passwordData.(loginId := value);
      case OldPassword => passwordData := passwordData.(oldPassword := value);
      case NewPassword => passwordData := passwordData.(newPassword := value);
      case ConfirmPassword => passwordData := passwordData.(confirmPassword := value);
    }

    /**
     * `handleResetPassword`: a refused reset shows the first failing
     * check's message and keeps the form; an accepted one shows the success
     * message and clears the three password fields, keeping the login id.
     */
    method Reset()
      modifies this
      ensures var e := ResetCheck(isAdmin, old(passwordData));
              if e.Some? then
                passwordError == Message(e.value) && passwordSuccess == "" && passwordData == old(passwordData)
              else
                passwordError == "" && passwordSuccess == ResetDoneMessage
                && passwordData == PasswordForm(old(passwordData).loginId, "", "", "")
    {
      passwordError := "";
      passwordSuccess := "";
      if !isAdmin && passwordData.oldPassword == "" {
        passwordError := OldRequiredMessage;
        return;
      }
      if passwordData.newPassword == "" {
        passwordError := NewRequiredMessage;
        return;
      }
      if Utf16Length(passwordData.newPassword) < MinPasswordLength {
        passwordError := TooShortMessage;
        return;
      }
      if passwordData.newPassword != passwordData.confirmPassword {
        passwordError := MismatchMessage;
        return;
      }
      passwordSuccess := ResetDoneMessage;
      passwordData := passwordData.(oldPassword := "", newPassword := "", confirmPassword := "");
    }
  }

  // ---------------------------------------------------------------------
  // Skills and certifications

  /** `list.filter((_, i) => i !== index)`. */
  function RemoveAt<T>(s: seq<T>, index: int): (r: seq<T>)
    ensures 0 <= index < |s| ==> |r| == |s| - 1
                                 && (forall k :: 0 <= k < index ==> r[k] == s[k])
                                 && (forall k :: index <= k < |r| ==> r[k] == s[k + 1])
    ensures !(0 <= index < |s|) ==> r == s
  {
    if 0 <= index < |s| then s[..index] + s[index + 1..] else s
  }

  /** A list of skills or of certifications, with the text typed into its dialog. */
  class ItemList {
    var items: seq<string>
    var input: string
    var dialogOpen: bool

    constructor(items: seq<string>)
      ensures this.items == items && input == "" && !dialogOpen
    {
      this.items := items;
      input := "";
      dialogOpen := false;
    }

    /** `handleAddSkill` / `handleAddCertification`: blank input does nothing; otherwise the trimmed text is appended and the dialog closed. */
    method Add()
      modifies this
      ensures AllSpace(old(input), JavaScript) ==> items == old(items) && input == old(input) && dialogOpen == old(dialogOpen)
      ensures !AllSpace(old(input), JavaScript) ==>
                items == old(items) + [Trim(old(input), JavaScript)] && Trim(old(input), JavaScript) != ""
                && input == "" && !dialogOpen
    {
      TrimShape(input, JavaScript);
      var trimmed := Trim(input, JavaScript);
      if trimmed != "" {
        items := items + [trimmed];
        input := "";
        dialogOpen := false;
      }
    }

    /** `handleRemoveSkill` / `handleRemoveCertification`: exactly the element at `index` goes; the others keep their order. */
    method Remove(index: int)
      modifies this
      ensures items == RemoveAt(old(items), index)
      ensures input == old(input) && dialogOpen == old(dialogOpen)
    {
      items := RemoveAt(items, index);
    }
  }

  // ---------------------------------------------------------------------
  // Edit / save / cancel dialogs

  /**
   * One editable section of the profile page (the profile card, the salary
   * information, the private information, the about texts): the saved
   * value and, while the dialog is open, the copy being edited.
   */
  class EditableSection<T> {
    var saved: T
    var edited: Option<T>

    constructor(initial: T)
      ensures saved == initial && edited == None
    {
      saved := initial;
      edited := None;
    }

    /** Opening the dialog edits a copy of the saved value. */
    method Edit()
      modifies this
      ensures edited == Some(saved) && saved == old(saved)
    {
      edited := Some(saved);
    }

    /** A change typed into the open dialog touches only the copy. */
    method Update(v: T)
      requires edited.Some?
      modifies this
      ensures edited == Some(v) && saved == old(saved)
    {
      edited := Some(v);
    }

    /** Save: the copy replaces the saved value and the dialog closes. */
    method Save()
      requires edited.Some?
      modifies this
      ensures saved == old(edited).value && edited == None
    {
      saved := edited.value;
      edited := None;
    }

    /** Cancel: the dialog closes and the saved value is as it was. */
    method Cancel()
      modifies this
      ensures saved == old(saved) && edited == None
    {
      edited := None;
    }
  }
}

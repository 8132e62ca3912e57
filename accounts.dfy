/**
 * Registration and password change in the Django back end's accounts app:
 * the password confirmation, the four character-class rules checked in a
 * fixed order, and the removal of the confirmation before the user is made.
 *
 * Both password fields are DRF character fields, which strip surrounding
 * white space before any rule sees the value; the rules below apply to the
 * stripped value.
 */
module Accounts {
  import opened Common

  /** `[!@#$%^&*(),.?":{}|<>]`. */
  const SpecialChars := "!@#$%^&*(),.?\":{}|<>"

  predicate IsUpperAscii(c: char) { 'A' <= c <= 'Z' }
  predicate IsLowerAscii(c: char) { 'a' <= c <= 'z' }
  predicate IsSpecial(c: char) { c in SpecialChars }

  /**
   * The class `\d` matches in a text pattern: every character of the
   * Unicode category Nd (decimal digits of any script), not only '0'..'9'.
   * The Unicode character database is not part of this model, so the class
   * is a parameter.
   */
  type DecimalClass = char -> bool

  predicate HasUpper(p: string) { exists i :: 0 <= i < |p| && IsUpperAscii(p[i]) }
  predicate HasLower(p: string) { exists i :: 0 <= i < |p| && IsLowerAscii(p[i]) }
  predicate HasDigit(p: string, isDecimal: DecimalClass) { exists i :: 0 <= i < |p| && isDecimal(p[i]) }
  predicate HasSpecial(p: string) { exists i :: 0 <= i < |p| && IsSpecial(p[i]) }

  /** A password all four rules accept. */
  predicate Strong(p: string, isDecimal: DecimalClass) {
    HasUpper(p) && HasLower(p) && HasDigit(p, isDecimal) && HasSpecial(p)
  }

  /** The rule a password breaks, reported one at a time. */
  datatype StrengthError = NoUppercase | NoLowercase | NoDigit | NoSpecial

  /**
   * The rules in the order the serializers run them; the first one broken
   * is the one reported.
   */
  function StrengthCheck(p: string, isDecimal: DecimalClass): (e: Option<StrengthError>)
    ensures e == None <==> Strong(p, isDecimal)
    ensures e == Some(NoUppercase) <==> !HasUpper(p)
    ensures e == Some(NoLowercase) <==> HasUpper(p) && !HasLower(p)
    ensures e == Some(NoDigit) <==> HasUpper(p) && HasLower(p) && !HasDigit(p, isDecimal)
    ensures e == Some(NoSpecial) <==> HasUpper(p) && HasLower(p) && HasDigit(p, isDecimal) && !HasSpecial(p)
  {
    if !HasUpper(p) then Some(NoUppercase)
    else if !HasLower(p) then Some(NoLowercase)
    else if !HasDigit(p, isDecimal) then Some(NoDigit)
    else if !HasSpecial(p) then Some(NoSpecial)
    else None
  }

  /** Adding characters to a password never makes a rule fail that it passed. */
  lemma StrengthSurvivesExtension(p: string, q: string, isDecimal: DecimalClass)
    requires Strong(p, isDecimal)
    ensures Strong(p + q, isDecimal) && Strong(q + p, isDecimal)
  {
    var i :| 0 <= i < |p| && IsUpperAscii(p[i]);
    assert (p + q)[i] == p[i] && (q + p)[|q| + i] == p[i];
    var j :| 0 <= j < |p| && IsLowerAscii(p[j]);
    assert (p + q)[j] == p[j] && (q + p)[|q| + j] == p[j];
    var k :| 0 <= k < |p| && isDecimal(p[k]);
    assert (p + q)[k] == p[k] && (q + p)[|q| + k] == p[k];
    var l :| 0 <= l < |p| && IsSpecial(p[l]);
    assert (p + q)[l] == p[l] && (q + p)[|q| + l] == p[l];
  }

  /**
   * A digit of another script satisfies the digit rule: "Abcdefg" followed
   * by ARABIC-INDIC DIGIT ONE (U+0661) and "!" is strong, while without a
   * digit of any kind the digit rule is the one reported.
   */
  lemma OtherScriptDigitCounts(isDecimal: DecimalClass)
    requires isDecimal('\U{0661}')
    requires forall c :: IsUpperAscii(c) || IsLowerAscii(c) || c == '!' ==> !isDecimal(c)
    ensures StrengthCheck("Abcdefg\U{0661}!", isDecimal) == None
    ensures StrengthCheck("Abcdefg!", isDecimal) == Some(NoDigit)
  {
    var p := "Abcdefg\U{0661}!";
    assert IsUpperAscii(p[0]) && IsLowerAscii(p[1]) && isDecimal(p[7]) && IsSpecial(p[8]);
    var q := "Abcdefg!";
    assert IsUpperAscii(q[0]) && IsLowerAscii(q[1]);
    assert forall i :: 0 <= i < |q| ==> !isDecimal(q[i]) by {
      forall i | 0 <= i < |q| ensures !isDecimal(q[i]) {
        assert IsUpperAscii(q[i]) || IsLowerAscii(q[i]) || q[i] == '!';
      }
    }
  }

  /** Why `UserRegistrationSerializer` refused a sign-up. */
  datatype RegistrationError =
    | FieldInvalid          // a field-level check failed: a required field, the username, or Django's password validators
    | PasswordMismatch
    | Weak(rule: StrengthError)

  /**
   * `UserRegistrationSerializer.validate`, after the field checks (whose
   * verdict is `fieldsValid`): the two passwords must match, and only then
   * are the character rules applied.
   */
  function ValidateRegistration(password: string, password2: string, fieldsValid: bool, isDecimal: DecimalClass): (r: Option<RegistrationError>)
    ensures r == None <==> fieldsValid && Trim(password, Python) == Trim(password2, Python) && Strong(Trim(password, Python), isDecimal)
    ensures fieldsValid && Trim(password, Python) != Trim(password2, Python) ==> r == Some(PasswordMismatch)
    ensures r.Some? && r.value.Weak? ==> Some(r.value.rule) == StrengthCheck(Trim(password, Python), isDecimal)
  {
    var p := Trim(password, Python);
    if !fieldsValid then Some(FieldInvalid)
    else if p != Trim(password2, Python) then Some(PasswordMismatch)
    else match StrengthCheck(p, isDecimal)
      case None => None
      case Some(rule) => Some(Weak(rule))
  }

  /** A mismatch is reported however weak the passwords are. */
  lemma MismatchBeforeStrength(password: string, password2: string, isDecimal: DecimalClass)
    requires Trim(password, Python) != Trim(password2, Python) && !Strong(Trim(password, Python), isDecimal)
    ensures ValidateRegistration(password, password2, true, isDecimal) == Some(PasswordMismatch)
  {
  }

  /** `ChangePasswordSerializer.validate_new_password`: the same four rules, in the same order. */
  function ValidateNewPassword(newPassword: string, isDecimal: DecimalClass): (r: Option<StrengthError>)
    ensures r == None <==> Strong(Trim(newPassword, Python), isDecimal)
  {
    StrengthCheck(Trim(newPassword, Python), isDecimal)
  }

  /** A password accepted at registration is accepted at change-password, and one refused there for weakness is refused for the same rule. */
  lemma ChangeUsesRegistrationRules(password: string, isDecimal: DecimalClass)
    ensures ValidateRegistration(password, password, true, isDecimal) == None <==> ValidateNewPassword(password, isDecimal) == None
    ensures forall rule :: ValidateRegistration(password, password, true, isDecimal) == Some(Weak(rule))
                           <==> ValidateNewPassword(password, isDecimal) == Some(rule)
  {
  }

  /**
   * `UserRegistrationSerializer.create`: the validated fields, with
   * `password2` popped, are what the user is created from.
   */
  function CreationFields(validated: map<string, string>): (fields: map<string, string>)
    requires "password2" in validated
    ensures "password2" !in fields
    ensures forall k :: k in fields <==> k in validated && k != "password2"
    ensures forall k :: k in fields ==> fields[k] == validated[k]
  {
    validated - {"password2"}
  }

  /** The password itself reaches the user creation untouched. */
  lemma CreationKeepsPassword(validated: map<string, string>)
    requires "password2" in validated && "password" in validated
    ensures "password" in CreationFields(validated) && CreationFields(validated)["password"] == validated["password"]
  {
  }
}

/** The client-side form checks that run before any adapter call: the entry
    screen's identifier schema, the registration schema, and the ordered
    checks of the reset-password screen. */
module Validators {
  import opened Common

  const MinPhoneLength := 8
  const MinNameLength := 2
  const MinPasswordLength := 8

  /** The entry screen's schema for the selected kind. The email check is a
      library rule that is not modelled: its verdict is the parameter
      `emailWellFormed`. */
  function IdentifierError(kind: IdKind, identifier: string, emailWellFormed: bool): (err: Option<string>)
    ensures kind == Phone ==> (err.Some? <==> |identifier| < MinPhoneLength)
    ensures kind == Phone && err.Some? ==> err.value == "Phone number too short"
    ensures kind == Email ==> (err.Some? <==> !emailWellFormed)
    ensures kind == Email && err.Some? ==> err.value == "Invalid email address"
  {
    match kind
    case Phone => if |identifier| < MinPhoneLength then Some("Phone number too short") else None
    case Email => if !emailWellFormed then Some("Invalid email address") else None
  }

  predicate IsAsciiAlphanumeric(c: char)
  {
    ('a' <= c <= 'z') || ('A' <= c <= 'Z') || IsDigit(c)
  }

  /** The regular expression `[0-9]` finds a match. */
  function HasDigit(s: string): (r: bool)
    ensures r <==> exists i :: 0 <= i < |s| && IsDigit(s[i])
  {
    if s == [] then false
    else if IsDigit(s[0]) then true
    else
      var r := HasDigit(s[1..]);
      assert r <==> exists i :: 0 <= i < |s| && IsDigit(s[i]) by {
        if r {
          var i :| 0 <= i < |s[1..]| && IsDigit(s[1..][i]);
          assert s[i + 1] == s[1..][i];
        }
        if exists i :: 0 <= i < |s| && IsDigit(s[i]) {
          var i :| 0 <= i < |s| && IsDigit(s[i]);
          assert s[1..][i - 1] == s[i];
        }
      }
      r
  }

  /** The regular expression `[^a-zA-Z0-9]` finds a match. */
  function HasSpecial(s: string): (r: bool)
    ensures r <==> exists i :: 0 <= i < |s| && !IsAsciiAlphanumeric(s[i])
  {
    if s == [] then false
    else if !IsAsciiAlphanumeric(s[0]) then true
    else
      var r := HasSpecial(s[1..]);
      assert r <==> exists i :: 0 <= i < |s| && !IsAsciiAlphanumeric(s[i]) by {
        if r {
          var i :| 0 <= i < |s[1..]| && !IsAsciiAlphanumeric(s[1..][i]);
          assert s[i + 1] == s[1..][i];
        }
        if exists i :: 0 <= i < |s| && !IsAsciiAlphanumeric(s[i]) {
          var i :| 0 <= i < |s| && !IsAsciiAlphanumeric(s[i]);
          assert s[1..][i - 1] == s[i];
        }
      }
      r
  }

  /** The first failing rule of the registration password, in the schema's
      order: length, then a digit, then a special character. */
  function PasswordError(password: string): (err: Option<string>)
    ensures err.None? <==> |password| >= MinPasswordLength
                           && (exists i :: 0 <= i < |password| && IsDigit(password[i]))
                           && (exists i :: 0 <= i < |password| && !IsAsciiAlphanumeric(password[i]))
    ensures |password| < MinPasswordLength ==> err == Some("Min 8 chars")
    ensures |password| >= MinPasswordLength && !HasDigit(password) ==> err == Some("Needs a number")
    ensures |password| >= MinPasswordLength && HasDigit(password) && !HasSpecial(password) ==>
              err == Some("Needs special char")
  {
    if |password| < MinPasswordLength then Some("Min 8 chars")
    else if !HasDigit(password) then Some("Needs a number")
    else if !HasSpecial(password) then Some("Needs special char")
    else None
  }

  /** The registration form's fields. */
  datatype RegisterForm = RegisterForm(firstName: string, lastName: string, password: string, confirmPassword: string)

  /** The message shown under each field, if any. */
  datatype RegisterErrors = RegisterErrors(
    firstName: Option<string>,
    lastName: Option<string>,
    password: Option<string>,
    confirmPassword: Option<string>)

  predicate NoErrors(e: RegisterErrors)
  {
    e.firstName.None? && e.lastName.None? && e.password.None? && e.confirmPassword.None?
  }

  /** The registration schema: names of at least two characters, the
      password rules, and a confirmation equal to the password, whose
      mismatch is reported on the confirmation field. */
  function RegisterFormErrors(f: RegisterForm): (e: RegisterErrors)
    ensures NoErrors(e) <==> |f.firstName| >= MinNameLength && |f.lastName| >= MinNameLength
                             && PasswordError(f.password).None? && f.password == f.confirmPassword
    ensures e.firstName.Some? <==> |f.firstName| < MinNameLength
    ensures e.lastName.Some? <==> |f.lastName| < MinNameLength
    ensures e.firstName.Some? ==> e.firstName.value == "First name required"
    ensures e.lastName.Some? ==> e.lastName.value == "Last name required"
    ensures e.password == PasswordError(f.password)
    ensures e.confirmPassword.Some? <==> f.password != f.confirmPassword
    ensures e.confirmPassword.Some? ==> e.confirmPassword.value == "Passwords don't match"
  {
    RegisterErrors(
      if |f.firstName| < MinNameLength then Some("First name required") else None,
      if |f.lastName| < MinNameLength then Some("Last name required") else None,
      PasswordError(f.password),
      if f.password != f.confirmPassword then Some("Passwords don't match") else None)
  }

  /** The reset-password screen's checks, first failure wins: both fields
      filled, then equal, then long enough. No digit or special-character
      rule applies. */
  function ResetPasswordError(password: string, confirm: string): (err: Option<string>)
    ensures err.None? <==> password != "" && confirm != "" && password == confirm
                           && |password| >= MinPasswordLength
    ensures password == "" || confirm == "" ==> err == Some("errors.required")
    ensures password != "" && confirm != "" && password != confirm ==> err == Some("errors.passwordMatch")
    ensures password != "" && password == confirm && |password| < MinPasswordLength ==>
              err == Some("errors.passwordShort")
  {
    if password == "" || confirm == "" then Some("errors.required")
    else if password != confirm then Some("errors.passwordMatch")
    else if |password| < MinPasswordLength then Some("errors.passwordShort")
    else None
  }

  /** Every password the registration schema accepts passes the reset
      checks when confirmed, but not conversely: "abcdefgh" passes the reset
      checks and fails registration for want of a digit. */
  lemma ResetIsWeakerThanRegister(password: string)
    ensures PasswordError(password).None? ==> ResetPasswordError(password, password).None?
    ensures ResetPasswordError("abcdefgh", "abcdefgh").None?
    ensures PasswordError("abcdefgh") == Some("Needs a number")
  {
  }
}

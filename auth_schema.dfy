/**
 * The form validation rules for the login and registration forms. Each field
 * check contributes its message when it fails; the result is the set of
 * violation messages per field, and a form is accepted when every set is empty.
 *
 * The email-shape test of the validation library is not visible, so every rule
 * takes it as the parameter `isEmail`. Lengths are JavaScript string lengths,
 * that is, counted in UTF-16 code units.
 */
module AuthSchema {
  import opened Wrappers

  const EmailRequired: string := "Email is required"
  const InvalidEmailFormat: string := "Invalid email format"
  const PasswordRequired: string := "Password is required"
  const PasswordTooShort: string := "Password must be at least 8 characters"
  const FullnameRequired: string := "Fullname is required"
  const RegisterPasswordTooShort: string := "Password need to have at least 8 characters"

  const MinPasswordLength: nat := 8

  /** The JavaScript `length` of `s`: characters outside the Basic Multilingual Plane count twice. */
  function Utf16Length(s: string): (n: nat)
    ensures |s| <= n <= 2 * |s|
    ensures n == 0 <==> s == ""
  {
    if s == [] then 0
    else (if s[0] as int > 0xFFFF then 2 else 1) + Utf16Length(s[1..])
  }

  /** On text inside the Basic Multilingual Plane the JavaScript length is the number of characters. */
  lemma {:induction false} Utf16LengthBmp(s: string)
    requires forall i :: 0 <= i < |s| ==> s[i] as int <= 0xFFFF
    ensures Utf16Length(s) == |s|
  {
    if s != [] {
      assert forall i :: 0 <= i < |s[1..]| ==> s[1..][i] == s[i + 1];
      Utf16LengthBmp(s[1..]);
    }
  }

  /** The login form's fields; `rememberMe` is optional. */
  datatype LoginForm = LoginForm(email: string, password: string, rememberMe: Option<bool>)

  /** The registration form's fields. */
  datatype RegisterForm = RegisterForm(fullname: string, email: string, password: string)

  /** Violation messages of a login form, per field (`rememberMe` has no check that can fail). */
  datatype LoginIssues = LoginIssues(email: set<string>, password: set<string>)

  /** Violation messages of a registration form, per field. */
  datatype RegisterIssues = RegisterIssues(fullname: set<string>, email: set<string>, password: set<string>)

  /** The email field's checks, shared by both forms: required, then email-shaped. */
  function EmailIssues(email: string, isEmail: string -> bool): (v: set<string>)
    ensures EmailRequired in v <==> email == ""
    ensures InvalidEmailFormat in v <==> !isEmail(email)
    ensures v <= {EmailRequired, InvalidEmailFormat}
  {
    (if Utf16Length(email) < 1 then {EmailRequired} else {})
    + (if !isEmail(email) then {InvalidEmailFormat} else {})
  }

  /** The login form's checks. */
  function LoginIssuesOf(f: LoginForm, isEmail: string -> bool): (v: LoginIssues)
    ensures v.email == EmailIssues(f.email, isEmail)
    ensures PasswordRequired in v.password <==> f.password == ""
    ensures PasswordTooShort in v.password <==> Utf16Length(f.password) < MinPasswordLength
    ensures v.password <= {PasswordRequired, PasswordTooShort}
  {
    LoginIssues(
      EmailIssues(f.email, isEmail),
      (if Utf16Length(f.password) < 1 then {PasswordRequired} else {})
      + (if Utf16Length(f.password) < MinPasswordLength then {PasswordTooShort} else {}))
  }

  /** A login form passes validation. */
  predicate LoginAccepted(f: LoginForm, isEmail: string -> bool)
  {
    var v := LoginIssuesOf(f, isEmail);
    v.email == {} && v.password == {}
  }

  /** A login form is accepted exactly when the email is non-empty and email-shaped and the password has length 8 or more. */
  lemma LoginAcceptedExactly(f: LoginForm, isEmail: string -> bool)
    ensures LoginAccepted(f, isEmail)
        <==> f.email != "" && isEmail(f.email) && Utf16Length(f.password) >= MinPasswordLength
  {
  }

  /** An empty password fails both password checks. */
  lemma EmptyPasswordBothMessages(f: LoginForm, isEmail: string -> bool)
    requires f.password == ""
    ensures LoginIssuesOf(f, isEmail).password == {PasswordRequired, PasswordTooShort}
  {
  }

  /** `rememberMe` never affects the outcome of validation. */
  lemma RememberMeIrrelevant(f: LoginForm, r: Option<bool>, isEmail: string -> bool)
    ensures LoginIssuesOf(f.(rememberMe := r), isEmail) == LoginIssuesOf(f, isEmail)
  {
  }

  /** The registration form's checks; the password has a length check and no separate "required" message. */
  function RegisterIssuesOf(f: RegisterForm, isEmail: string -> bool): (v: RegisterIssues)
    ensures FullnameRequired in v.fullname <==> f.fullname == ""
    ensures v.fullname <= {FullnameRequired}
    ensures v.email == EmailIssues(f.email, isEmail)
    ensures RegisterPasswordTooShort in v.password <==> Utf16Length(f.password) < MinPasswordLength
    ensures v.password <= {RegisterPasswordTooShort}
  {
    RegisterIssues(
      if Utf16Length(f.fullname) < 1 then {FullnameRequired} else {},
      EmailIssues(f.email, isEmail),
      if Utf16Length(f.password) < MinPasswordLength then {RegisterPasswordTooShort} else {})
  }

  /** A registration form passes validation. */
  predicate RegisterAccepted(f: RegisterForm, isEmail: string -> bool)
  {
    var v := RegisterIssuesOf(f, isEmail);
    v.fullname == {} && v.email == {} && v.password == {}
  }

  /** A registration form is accepted exactly when the login rules hold and the full name is non-empty. */
  lemma RegisterAcceptedExactly(f: RegisterForm, isEmail: string -> bool)
    ensures RegisterAccepted(f, isEmail)
        <==> f.fullname != "" && f.email != "" && isEmail(f.email)
             && Utf16Length(f.password) >= MinPasswordLength
  {
  }

  /** The registration form `{email: "a@b.com", password: "short"}` is rejected for its password length. */
  lemma ShortRegisterPasswordRejected(fullname: string, isEmail: string -> bool)
    ensures RegisterIssuesOf(RegisterForm(fullname, "a@b.com", "short"), isEmail).password == {RegisterPasswordTooShort}
    ensures !RegisterAccepted(RegisterForm(fullname, "a@b.com", "short"), isEmail)
  {
  }
}

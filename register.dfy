/**
  The registration screen (`src/components/Register.jsx`): the form state and
  its field-by-field update, the ordered validation chain in which the first
  failing check sets the message, and the submit flow that strips
  `confirmPassword` before calling `register`.
*/
module Register {
  import opened Js
  import opened Text

  /** The six controlled inputs of the form. */
  datatype RegisterForm = RegisterForm(
    username: string, password: string, confirmPassword: string,
    email: string, phone: string, full_name: string)

  datatype Field = Username | Password | ConfirmPassword | Email | Phone | FullName

  /** The initial `formData`: every field empty. */
  const EmptyForm := RegisterForm("", "", "", "", "", "")

  function Get(f: RegisterForm, name: Field): string {
    match name
    case Username => f.username
    case Password => f.password
    case ConfirmPassword => f.confirmPassword
    case Email => f.email
    case Phone => f.phone
    case FullName => f.full_name
  }

  /** `{...prev, [name]: value}`: the named field takes the new value and every
      other field keeps its old one. */
  function SetField(f: RegisterForm, name: Field, value: string): (r: RegisterForm)
    ensures Get(r, name) == value
    ensures forall other :: other != name ==> Get(r, other) == Get(f, other)
  {
    match name
    case Username => f.(username := value)
    case Password => f.(password := value)
    case ConfirmPassword => f.(confirmPassword := value)
    case Email => f.(email := value)
    case Phone => f.(phone := value)
    case FullName => f.(full_name := value)
  }

  /** `s.length`: JavaScript counts UTF-16 code units, so a character outside the
      Basic Multilingual Plane counts twice. */
  function Utf16Length(s: string): (n: nat)
    ensures |s| <= n <= 2 * |s|
    ensures (forall i :: 0 <= i < |s| ==> s[i] as int <= 0xFFFF) ==> n == |s|
  {
    if s == [] then 0
    else (if s[0] as int > 0xFFFF then 2 else 1) + Utf16Length(s[1..])
  }

  /** `/\S+@\S+\.\S+/.test(s)`: the pattern is not anchored, so it holds when some
      `@` has a non-space character before it and is followed by one or more
      non-space characters, then a `.`, then a non-space character. */
  predicate EmailPatternMatches(s: string) {
    exists at, dot :: 1 <= at && at + 2 <= dot && dot + 1 < |s|
      && EmailShapeAt(s, at, dot)
  }

  /** The match shape with `@` at `at` and the `.` at `dot`. */
  predicate EmailShapeAt(s: string, at: int, dot: int)
    requires 1 <= at && at + 2 <= dot && dot + 1 < |s|
  {
    && s[at] == '@' && !IsSpace(s[at - 1])
    && s[dot] == '.' && !IsSpace(s[dot + 1])
    && forall k :: at < k < dot ==> !IsSpace(s[k])
  }

  const UsernameRequired := "请输入用户名"
  const PasswordRequired := "请输入密码"
  const PasswordTooShort := "密码长度至少6位"
  const PasswordMismatch := "两次输入的密码不一致"
  const InvalidEmail := "请输入有效的邮箱地址"

  /** The check each message reports, as a predicate that the form passes. */
  predicate UsernameOk(f: RegisterForm) { !IsBlank(f.username) }
  predicate PasswordPresent(f: RegisterForm) { f.password != "" }
  predicate PasswordLongEnough(f: RegisterForm) { Utf16Length(f.password) >= 6 }
  predicate PasswordsAgree(f: RegisterForm) { f.password == f.confirmPassword }
  predicate EmailOk(f: RegisterForm) { f.email == "" || EmailPatternMatches(f.email) }

  /** `validateForm`: `None` when it returns true, otherwise the message it sets.
      The checks run in a fixed order and the first one that fails decides. */
  function Validate(f: RegisterForm): (r: Option<string>)
    ensures r.None? <==>
      UsernameOk(f) && PasswordPresent(f) && PasswordLongEnough(f) && PasswordsAgree(f) && EmailOk(f)
    ensures r == Some(UsernameRequired) <==> !UsernameOk(f)
    ensures r == Some(PasswordRequired) <==> UsernameOk(f) && !PasswordPresent(f)
    ensures r == Some(PasswordTooShort) <==>
      UsernameOk(f) && PasswordPresent(f) && !PasswordLongEnough(f)
    ensures r == Some(PasswordMismatch) <==>
      UsernameOk(f) && PasswordPresent(f) && PasswordLongEnough(f) && !PasswordsAgree(f)
    ensures r == Some(InvalidEmail) <==>
      UsernameOk(f) && PasswordPresent(f) && PasswordLongEnough(f) && PasswordsAgree(f) && !EmailOk(f)
  {
    if IsBlank(f.username) then Some(UsernameRequired)
    else if f.password == "" then Some(PasswordRequired)
    else if Utf16Length(f.password) < 6 then Some(PasswordTooShort)
    else if f.password != f.confirmPassword then Some(PasswordMismatch)
    else if f.email != "" && !EmailPatternMatches(f.email) then Some(InvalidEmail)
    else None
  }

  /** A username made only of white space is refused before anything else is looked at. */
  lemma WhitespaceUsernameRefused(f: RegisterForm)
    requires forall i :: 0 <= i < |f.username| ==> IsSpace(f.username[i])
    ensures Validate(f) == Some(UsernameRequired)
  {
    BlankIffAllSpace(f.username);
  }

  /** Once a username is given, a non-empty password of fewer than six characters
      inside the Basic Multilingual Plane is refused as too short, whatever the
      confirmation and the email. */
  lemma ShortPasswordRefused(f: RegisterForm)
    requires UsernameOk(f) && f.password != "" && |f.password| < 6
    requires forall i :: 0 <= i < |f.password| ==> f.password[i] as int <= 0xFFFF
    ensures Validate(f) == Some(PasswordTooShort)
  {
    assert Utf16Length(f.password) == |f.password|;
  }

  /** An empty email is never checked against the pattern. */
  lemma EmptyEmailAccepted(f: RegisterForm)
    requires UsernameOk(f) && PasswordPresent(f) && PasswordLongEnough(f) && PasswordsAgree(f)
    requires f.email == ""
    ensures Validate(f).None?
  {
  }

  /** The unanchored pattern accepts a matching address anywhere inside a longer
      text, white space around it included. */
  lemma EmailPatternUnanchored(pre: string, local: char, domain: char, tld: char, post: string)
    requires !IsSpace(local) && !IsSpace(domain) && !IsSpace(tld)
    ensures EmailPatternMatches(pre + [local, '@', domain, '.', tld] + post)
  {
    var s := pre + [local, '@', domain, '.', tld] + post;
    var at := |pre| + 1;
    assert s[at - 1] == local && s[at] == '@' && s[at + 1] == domain;
    assert s[at + 2] == '.' && s[at + 3] == tld;
    assert EmailShapeAt(s, at, at + 2);
  }

  /** An address without an `@` never matches. */
  lemma EmailNeedsAt(s: string)
    requires forall i :: 0 <= i < |s| ==> s[i] != '@'
    ensures !EmailPatternMatches(s)
  {
  }

  /** The object handed to `register`: the form without `confirmPassword`. */
  datatype RegisterPayload = RegisterPayload(
    username: string, password: string, email: string, phone: string, full_name: string)

  function PayloadOf(f: RegisterForm): (p: RegisterPayload)
    ensures p.username == f.username && p.password == f.password && p.email == f.email
    ensures p.phone == f.phone && p.full_name == f.full_name
  {
    RegisterPayload(f.username, f.password, f.email, f.phone, f.full_name)
  }

  /** What the awaited `register(registerData)` call produced. */
  datatype RegisterOutcome =
    | Registered                      // `result.success`
    | Rejected(error: Option<string>) // `result.error`, possibly missing
    | Threw                           // the promise rejected

  const RegisterFailed := "注册失败，请稍后重试"

  /** The screen's state and its handlers. */
  class RegisterScreen {
    var form: RegisterForm
    var error: string
    var loading: bool
    var success: bool

    constructor ()
      ensures form == EmptyForm && error == "" && !loading && !success
    {
      form := EmptyForm;
      error := "";
      loading := false;
      success := false;
    }

    /** `handleChange`: one field changes and any error is cleared. */
    method HandleChange(name: Field, value: string)
      modifies this
      ensures form == SetField(old(form), name, value)
      ensures error == ""
      ensures loading == old(loading) && success == old(success)
    {
      form := SetField(form, name, value);
      if error != "" {
        error := "";
      }
    }

    /** The synchronous part of `handleSubmit`, up to the `register` call. A
        failing validation sets its message and returns without calling
        `register`; otherwise loading starts, the error is cleared, and the
        payload is the one `register` receives. */
    method Submit() returns (request: Option<RegisterPayload>)
      modifies this
      ensures form == old(form) && success == old(success)
      ensures Validate(form).Some? ==>
        request.None? && error == Validate(form).value && loading == old(loading)
      ensures Validate(form).None? ==>
        request == Some(PayloadOf(form)) && error == "" && loading
    {
      var check := Validate(form);
      if check.Some? {
        error := check.value;
        return None;
      }
      loading := true;
      error := "";
      request := Some(PayloadOf(form));
    }

    /** The rest of `handleSubmit`: success, or the error message, and then
        loading stops in every case. */
    method Complete(outcome: RegisterOutcome)
      modifies this
      ensures form == old(form) && !loading
      ensures success == (old(success) || outcome.Registered?)
      ensures outcome.Registered? ==> error == old(error)
      ensures outcome.Rejected? ==> error == StringOr(outcome.error, RegisterFailed)
      ensures outcome.Threw? ==> error == RegisterFailed
    {
      match outcome {
        case Registered =>
          success := true;
        case Rejected(e) =>
          error := StringOr(e, RegisterFailed);
        case Threw =>
          error := RegisterFailed;
      }
      loading := false;
    }
  }
}

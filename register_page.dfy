/** The submit handler of client/src/pages/RegisterPage.jsx: the two
    client-side checks in their order, then the call to `register` and what
    its result leads to. The form state and the loading flag are UI only. */
module RegisterPage {
  import opened JsValues

  datatype Form = Form(name: string, email: string, password: string, confirmPassword: string)

  /** What `register` resolves with. */
  datatype RegisterResult = RegisterResult(success: bool, message: string)

  /** The early-return chain: reject with a message, or go on. */
  datatype Check = Proceed | Rejected(message: string)

  const TooShort := "Password must be at least 6 characters"
  const Mismatch := "Passwords do not match"

  /** The validation of `handleSubmit`; `password.length` counts UTF-16 code
      units. */
  function Validate(f: Form): (c: Check)
    ensures Utf16Length(f.password) < 6 ==> c == Rejected(TooShort)
    ensures Utf16Length(f.password) >= 6 && f.password != f.confirmPassword ==> c == Rejected(Mismatch)
    ensures c == Proceed <==> Utf16Length(f.password) >= 6 && f.password == f.confirmPassword
  {
    if Utf16Length(f.password) < 6 then Rejected(TooShort)
    else if f.password != f.confirmPassword then Rejected(Mismatch)
    else Proceed
  }

  /** The effects of one submit: the messages passed to `setError` in order,
      the `register` call made (name, email, password), if any, and the
      route navigated to, if any. */
  datatype Effects = Effects(errors: seq<string>, call: Option<(string, string, string)>, navigate: Option<string>)

  /** `handleSubmit`, given what `register` would resolve with. */
  function Submit(f: Form, result: RegisterResult): (e: Effects)
    ensures |e.errors| >= 1 && e.errors[0] == ""
    ensures e.call.Some? <==> Validate(f) == Proceed
    ensures e.call.Some? ==> e.call.value == (f.name, f.email, f.password)
    ensures Validate(f).Rejected? ==> e.errors == ["", Validate(f).message] && e.navigate.None?
    ensures Validate(f) == Proceed && result.success ==> e.errors == [""] && e.navigate == Some("/dashboard")
    ensures Validate(f) == Proceed && !result.success ==> e.errors == ["", result.message] && e.navigate.None?
  {
    match Validate(f)
    case Rejected(m) => Effects(["", m], None, None)
    case Proceed =>
      var call := Some((f.name, f.email, f.password));
      if result.success then Effects([""], call, Some("/dashboard"))
      else Effects(["", result.message], call, None)
  }

  /** The length check comes first: a short password that also differs from
      its confirmation reports the length. */
  lemma LengthBeforeMatch(f: Form, result: RegisterResult)
    requires Utf16Length(f.password) < 6 && f.password != f.confirmPassword
    ensures Submit(f, result).errors == ["", TooShort] && Submit(f, result).call.None?
  {
  }

  /** Counting code units: a five-character password with one emoji outside
      the Basic Multilingual Plane is already six long. */
  lemma EmojiCountsTwice()
    ensures Validate(Form("a", "a@b.c", "abcd\U{1F600}", "abcd\U{1F600}")) == Proceed
  {
    var p := "abcd\U{1F600}";
    assert p[1..][1..][1..][1..] == "\U{1F600}";
    assert Utf16Length("\U{1F600}") == 2;
  }
}

/** The registration form of frontend/src/components/RegisterForm.tsx: the
    client-side check chain `validateForm` and the form state that
    `handleChange` and `handleSubmit` update. The registration call itself
    (`onRegister`, a request to the auth service) is a parameter: its
    outcome is passed in, and the method returns what it was sent. */
module RegisterForm {
  import opened Common

  const RequiredFieldsMessage: string := "Заполните все обязательные поля"
  const PasswordLengthMessage: string := "Пароль должен содержать минимум 6 символов"
  const PasswordMismatchMessage: string := "Пароли не совпадают"
  const EmailMessage: string := "Введите корректный email"
  const SuccessMessage: string := "Регистрация успешна! Теперь можете войти в систему."
  const FallbackErrorMessage: string := "Ошибка регистрации"

  /** The shortest password, in JavaScript's `length`. */
  const MinPasswordLength: nat := 6

  datatype FormData = FormData(
    username: string, email: string, password: string, confirmPassword: string, fullName: string, role: string)

  /** The state the form starts in and returns to after a registration. */
  const Defaults: FormData := FormData("", "", "", "", "", "client")

  /** JavaScript's `length`: UTF-16 code units, two for a character outside
      the basic multilingual plane. */
  function Utf16Length(s: string): (n: nat)
    ensures |s| <= n <= 2 * |s|
  {
    if |s| == 0 then 0 else Utf16Length(s[..|s| - 1]) + (if s[|s| - 1] as int > 0xFFFF then 2 else 1)
  }

  /** A string of astral characters is twice as long for JavaScript. */
  lemma {:induction false} AstralLength(s: string)
    requires forall k :: 0 <= k < |s| ==> s[k] as int > 0xFFFF
    ensures Utf16Length(s) == 2 * |s|
  {
    if |s| > 0 {
      AstralLength(s[..|s| - 1]);
    }
  }

  /** The characters of the regular-expression class `\s`: JavaScript's
      white space and line terminators. */
  predicate IsJsSpace(c: char) {
    ('\t' <= c <= '\r') || c == ' ' || c == '\U{A0}' || c == '\U{1680}' || ('\U{2000}' <= c <= '\U{200A}')
    || c == '\U{2028}' || c == '\U{2029}' || c == '\U{202F}' || c == '\U{205F}' || c == '\U{3000}' || c == '\U{FEFF}'
  }

  /** A character of the class `[^\s@]`. */
  predicate IsPlain(c: char) {
    !IsJsSpace(c) && c != '@'
  }

  /** A run matched by `[^\s@]+`. */
  predicate PlainRun(s: string) {
    |s| > 0 && forall k :: 0 <= k < |s| ==> IsPlain(s[k])
  }

  /** The language of `^[^\s@]+@[^\s@]+\.[^\s@]+$`: three plain runs joined
      by an `@` and a `.` at positions `i` and `j`. */
  ghost predicate MatchesEmailPattern(s: string) {
    exists i: nat, j: nat :: i < j < |s| && s[i] == '@' && s[j] == '.'
      && PlainRun(s[..i]) && PlainRun(s[i + 1..j]) && PlainRun(s[j + 1..])
  }

  function IsAt(c: char): bool { c == '@' }

  /** A dot with a character on either side of it. */
  predicate HasInnerDot(d: string) {
    exists j :: 1 <= j < |d| - 1 && d[j] == '.'
  }

  /** `emailRegex.test`: the first `@` splits the address; the part before
      it and the part after it are made of characters of `[^\s@]`, and the
      part after it has a dot that is neither its first nor its last
      character. */
  function EmailTest(s: string): bool {
    match FirstIndex(s, IsAt)
    case None => false
    case Some(i) =>
      PlainRun(s[..i]) && PlainRun(s[i + 1..]) && HasInnerDot(s[i + 1..])
  }

  /** Every address the scan accepts matches the pattern. */
  lemma EmailTestSound(s: string)
    requires EmailTest(s)
    ensures MatchesEmailPattern(s)
  {
    var i := FirstIndex(s, IsAt).value;
    var d := s[i + 1..];
    var m :| 1 <= m < |d| - 1 && d[m] == '.';
    var j := i + 1 + m;
    assert s[i + 1..j] == d[..m];
    assert s[j + 1..] == d[m + 1..];
    assert PlainRun(s[i + 1..j]);
    assert PlainRun(s[j + 1..]);
  }

  /** The `@` of a match is the first one, and what follows it is one plain
      run with an inner dot. */
  lemma EmailTestComplete(s: string, i: nat, j: nat)
    requires i < j < |s| && s[i] == '@' && s[j] == '.'
    requires PlainRun(s[..i]) && PlainRun(s[i + 1..j]) && PlainRun(s[j + 1..])
    ensures EmailTest(s)
  {
    assert forall k :: 0 <= k < i ==> s[..i][k] == s[k];
    FirstIndexAt(s, IsAt, i);
    var d := s[i + 1..];
    var b, c := s[i + 1..j], s[j + 1..];
    assert |d| == |b| + 1 + |c|;
    assert d[|b|] == '.';
    assert HasInnerDot(d);
    forall k | 0 <= k < |d| ensures IsPlain(d[k]) {
      if k < |b| {
        assert d[k] == b[k];
      } else if k > |b| {
        assert d[k] == c[k - |b| - 1];
      }
    }
  }

  /** The scan accepts exactly the addresses the pattern matches. */
  lemma EmailTestIsPattern(s: string)
    ensures EmailTest(s) <==> MatchesEmailPattern(s)
  {
    if EmailTest(s) {
      EmailTestSound(s);
    }
    if MatchesEmailPattern(s) {
      var i: nat, j: nat :| i < j < |s| && s[i] == '@' && s[j] == '.'
        && PlainRun(s[..i]) && PlainRun(s[i + 1..j]) && PlainRun(s[j + 1..]);
      EmailTestComplete(s, i, j);
    }
  }

  /** The pattern accepts a dot right after the `@` as long as another dot
      follows with something after it. */
  lemma EmailAccepted()
    ensures EmailTest("a@b.c")
    ensures EmailTest("a@..c")
  {
    var s, t := "a@b.c", "a@..c";
    assert s[..1] == "a" && s[2..3] == "b" && s[4..] == "c";
    EmailTestComplete(s, 1, 3);
    assert t[..1] == "a" && t[2..3] == "." && t[4..] == "c";
    EmailTestComplete(t, 1, 3);
  }

  /** The pattern needs a dot with something on both sides after the `@`. */
  lemma EmailRefused()
    ensures !EmailTest("a@b")
    ensures !EmailTest("a@b.")
  {
    FirstIndexAt("a@b", IsAt, 1);
    FirstIndexAt("a@b.", IsAt, 1);
    assert "a@b."[2..] == "b.";
  }

  /** `validateForm`: the message of the first check that fails, or none. */
  function ValidateForm(f: FormData): (r: Option<string>)
    ensures r.None? <==>
      && f.username != "" && f.email != "" && f.password != "" && f.fullName != ""
      && Utf16Length(f.password) >= MinPasswordLength
      && f.password == f.confirmPassword
      && EmailTest(f.email)
  {
    if f.username == "" || f.email == "" || f.password == "" || f.fullName == "" then Some(RequiredFieldsMessage)
    else if Utf16Length(f.password) < MinPasswordLength then Some(PasswordLengthMessage)
    else if f.password != f.confirmPassword then Some(PasswordMismatchMessage)
    else if !EmailTest(f.email) then Some(EmailMessage)
    else None
  }

  predicate RequiredPresent(f: FormData) {
    f.username != "" && f.email != "" && f.password != "" && f.fullName != ""
  }

  /** Each message stands for its own check failing after every earlier one
      has passed, and a form that passes has an address of the pattern's
      shape. */
  lemma FirstFailureWins(f: FormData)
    ensures ValidateForm(f) == Some(RequiredFieldsMessage) <==> !RequiredPresent(f)
    ensures ValidateForm(f) == Some(PasswordLengthMessage) <==>
      RequiredPresent(f) && Utf16Length(f.password) < MinPasswordLength
    ensures ValidateForm(f) == Some(PasswordMismatchMessage) <==>
      RequiredPresent(f) && Utf16Length(f.password) >= MinPasswordLength && f.password != f.confirmPassword
    ensures ValidateForm(f) == Some(EmailMessage) <==>
      RequiredPresent(f) && Utf16Length(f.password) >= MinPasswordLength && f.password == f.confirmPassword
      && !MatchesEmailPattern(f.email)
    ensures ValidateForm(f).None? ==> MatchesEmailPattern(f.email)
  {
    EmailTestIsPattern(f.email);
    assert RequiredFieldsMessage != PasswordLengthMessage && RequiredFieldsMessage != PasswordMismatchMessage;
    assert RequiredFieldsMessage != EmailMessage && PasswordLengthMessage != PasswordMismatchMessage;
    assert PasswordLengthMessage != EmailMessage && PasswordMismatchMessage != EmailMessage;
  }

  /** The form as it starts, and as a registration leaves it, does not pass:
      submitting it again is stopped before any request. */
  lemma DefaultsRefused()
    ensures ValidateForm(Defaults) == Some(RequiredFieldsMessage)
  {
  }

  /** Three characters outside the basic plane make a password long enough
      for the form, though the string has only three characters. */
  lemma ThreeAstralCharactersSuffice(f: FormData)
    requires RequiredPresent(f) && |f.password| == 3
    requires forall k :: 0 <= k < 3 ==> f.password[k] as int > 0xFFFF
    ensures ValidateForm(f) != Some(PasswordLengthMessage)
  {
    AstralLength(f.password);
    FirstFailureWins(f);
  }

  /** What `handleSubmit` hands to `onRegister`: the form without the
      confirmation. */
  datatype Payload = Payload(username: string, email: string, password: string, fullName: string, role: string)

  function PayloadOf(f: FormData): Payload {
    Payload(f.username, f.email, f.password, f.fullName, f.role)
  }

  /** An input the form renders, by its `name`. */
  datatype Field = Username | Email | Password | ConfirmPassword | FullName | Role

  function WithField(f: FormData, field: Field, value: string): (r: FormData)
    ensures field == Username ==> r == f.(username := value)
    ensures field == Email ==> r == f.(email := value)
    ensures field == Password ==> r == f.(password := value)
    ensures field == ConfirmPassword ==> r == f.(confirmPassword := value)
    ensures field == FullName ==> r == f.(fullName := value)
    ensures field == Role ==> r == f.(role := value)
  {
    match field
    case Username => f.(username := value)
    case Email => f.(email := value)
    case Password => f.(password := value)
    case ConfirmPassword => f.(confirmPassword := value)
    case FullName => f.(fullName := value)
    case Role => f.(role := value)
  }

  /** How `onRegister` ended: resolved, or rejected with an error whose
      `message` is given (possibly empty). */
  datatype RegisterOutcome = Resolved | RejectedWith(message: string)

  class FormState {
    var formData: FormData
    var error: string
    var success: string
    var loading: bool

    constructor ()
      ensures formData == Defaults && error == "" && success == "" && !loading
    {
      formData, error, success, loading := Defaults, "", "", false;
    }

    /** `handleChange`: one field takes the input's value. */
    method HandleChange(field: Field, value: string)
      modifies this
      ensures formData == WithField(old(formData), field, value)
      ensures error == old(error) && success == old(success) && loading == old(loading)
    {
      formData := WithField(formData, field, value);
    }

    /** `handleSubmit`: both messages are cleared; a failed check shows its
        message and sends nothing; otherwise the payload is sent, and on
        success the success message shows and the form is reset, on failure
        the error's message (or the fallback) shows and the form is kept.
        `loading` is false once the call has settled. */
    method HandleSubmit(outcome: RegisterOutcome) returns (sent: Option<Payload>)
      modifies this
      ensures sent.Some? <==> ValidateForm(old(formData)).None?
      ensures ValidateForm(old(formData)).Some? ==>
        && error == ValidateForm(old(formData)).value && success == ""
        && formData == old(formData) && loading == old(loading)
      ensures sent.Some? ==> sent.value == PayloadOf(old(formData)) && !loading
      ensures sent.Some? && outcome.Resolved? ==> success == SuccessMessage && error == "" && formData == Defaults
      ensures sent.Some? && outcome.RejectedWith? ==>
        && success == "" && formData == old(formData)
        && error == (if outcome.message != "" then outcome.message else FallbackErrorMessage)
    {
      error := "";
      success := "";
      var validationError := ValidateForm(formData);
      if validationError.Some? {
        error := validationError.value;
        return None;
      }
      loading := true;
      sent := Some(PayloadOf(formData));
      if outcome.Resolved? {
        success := SuccessMessage;
        formData := Defaults;
      } else {
        error := if outcome.message != "" then outcome.message else FallbackErrorMessage;
      }
      loading := false;
    }
  }

  /** A successful registration leaves a form that refuses to submit, so a
      second submit sends nothing. */
  method SubmitTwice(form: FormState, f: FormData) returns (first: Option<Payload>, second: Option<Payload>)
    requires ValidateForm(f).None?
    modifies form
    ensures first == Some(PayloadOf(f)) && second.None?
    ensures form.error == RequiredFieldsMessage && form.formData == Defaults
  {
    form.formData := f;
    first := form.HandleSubmit(Resolved);
    DefaultsRefused();
    second := form.HandleSubmit(Resolved);
  }
}

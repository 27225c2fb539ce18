/** The sign-up form: per-field validation with its fixed messages, the
    submit-time validation, the enabled state of the submit button, the
    change handler that keeps the recorded errors current, and the mapping
    of service errors to user-facing text. The two regular expressions the
    form uses are modelled as the languages they denote. */
module Signup {
  import opened Wrappers
  import opened Text
  import opened Dict

  /** A character `[^\s@]` accepts. */
  predicate EmailChar(c: char) {
    !IsSpace(c) && c != '@'
  }

  predicate AllEmailChars(t: string) {
    forall k | 0 <= k < |t| :: EmailChar(t[k])
  }

  /** `/^[^\s@]+@[^\s@]+\.[^\s@]+$/.test(s)`: three non-empty runs of
      characters other than white space and '@', joined by '@' and '.'. */
  predicate EmailPattern(s: string) {
    exists i, j | 0 < i && i + 1 < j < |s| - 1 ::
      s[i] == '@' && s[j] == '.'
      && AllEmailChars(s[..i]) && AllEmailChars(s[i + 1..j]) && AllEmailChars(s[j + 1..])
  }

  /** The pattern in plain words: no white space, exactly one '@', not at the
      start, and a '.' after it that is neither the first nor the last
      character of the domain. */
  predicate PlainEmailShape(s: string) {
    (forall k | 0 <= k < |s| :: !IsSpace(s[k]))
    && exists i | 0 < i < |s| ::
      s[i] == '@' && (forall k | 0 <= k < |s| && k != i :: s[k] != '@')
      && exists j | i + 1 < j < |s| - 1 :: s[j] == '.'
  }

  lemma EmailPatternShape(s: string)
    ensures EmailPattern(s) <==> PlainEmailShape(s)
  {
    if EmailPattern(s) {
      var i, j :| 0 < i && i + 1 < j < |s| - 1 && s[i] == '@' && s[j] == '.'
        && AllEmailChars(s[..i]) && AllEmailChars(s[i + 1..j]) && AllEmailChars(s[j + 1..]);
      PatternGivesShape(s, i, j);
    }
    if PlainEmailShape(s) {
      var i :| 0 < i < |s| && s[i] == '@' && (forall k | 0 <= k < |s| && k != i :: s[k] != '@')
        && exists j | i + 1 < j < |s| - 1 :: s[j] == '.';
      var j :| i + 1 < j < |s| - 1 && s[j] == '.';
      ShapeGivesPattern(s, i, j);
    }
  }

  /** The characters of `s[a..b]` are those at `a` to `b - 1`. */
  lemma EmailCharsSlice(s: string, a: int, b: int)
    requires 0 <= a <= b <= |s|
    ensures AllEmailChars(s[a..b]) <==> forall k | a <= k < b :: EmailChar(s[k])
  {
    if AllEmailChars(s[a..b]) {
      forall k | a <= k < b ensures EmailChar(s[k]) {
        assert s[k] == s[a..b][k - a];
      }
    }
  }

  lemma PatternGivesShape(s: string, i: int, j: int)
    requires 0 < i && i + 1 < j < |s| - 1 && s[i] == '@' && s[j] == '.'
    requires AllEmailChars(s[..i]) && AllEmailChars(s[i + 1..j]) && AllEmailChars(s[j + 1..])
    ensures PlainEmailShape(s)
  {
    EmailCharsSlice(s, 0, i);
    EmailCharsSlice(s, i + 1, j);
    EmailCharsSlice(s, j + 1, |s|);
    assert s[..i] == s[0..i] && s[j + 1..] == s[j + 1..|s|];
    assert forall k | 0 <= k < |s| && k != i :: EmailChar(s[k]);
    assert !IsSpace(s[i]);
  }

  lemma ShapeGivesPattern(s: string, i: int, j: int)
    requires (forall k | 0 <= k < |s| :: !IsSpace(s[k]))
    requires 0 < i && i + 1 < j < |s| - 1 && s[i] == '@' && s[j] == '.'
    requires forall k | 0 <= k < |s| && k != i :: s[k] != '@'
    ensures EmailPattern(s)
  {
    EmailCharsSlice(s, 0, i);
    EmailCharsSlice(s, i + 1, j);
    EmailCharsSlice(s, j + 1, |s|);
    assert s[..i] == s[0..i] && s[j + 1..] == s[j + 1..|s|];
  }

  lemma EmailPatternExamples()
    ensures EmailPattern("jo@pets.io")
    ensures !EmailPattern("jo@pets")
    ensures !EmailPattern(" jo@pets.io")
  {
    var s := "jo@pets.io";
    assert s[2] == '@' && s[7] == '.';
    assert s[..2] == "jo" && s[3..7] == "pets" && s[8..] == "io";
    assert AllEmailChars(s[..2]) && AllEmailChars(s[3..7]) && AllEmailChars(s[8..]);
    EmailPatternShape("jo@pets");
    assert forall j | 3 < j < 6 :: "jo@pets"[j] != '.';
    EmailPatternShape(" jo@pets.io");
    assert IsSpace(" jo@pets.io"[0]);
  }

  predicate LowerAscii(c: char) {
    'a' <= c <= 'z'
  }

  predicate UpperAscii(c: char) {
    'A' <= c <= 'Z'
  }

  predicate NoLineBreak(t: string) {
    forall k | 0 <= k < |t| :: !IsLineTerminator(t[k])
  }

  /** `(?=.*[a-z])` at position `p`: a lowercase letter at or after `p` with
      no line terminator in between (`.` does not match one). */
  predicate LowerAhead(s: string, p: int) {
    exists l | 0 <= p <= l < |s| :: LowerAscii(s[l]) && NoLineBreak(s[p..l])
  }

  predicate UpperAhead(s: string, p: int) {
    exists u | 0 <= p <= u < |s| :: UpperAscii(s[u]) && NoLineBreak(s[p..u])
  }

  /** `/(?=.*[a-z])(?=.*[A-Z])/.test(s)`: both look-aheads succeed at one
      position. */
  predicate MixedCasePattern(s: string) {
    exists p | 0 <= p <= |s| :: LowerAhead(s, p) && UpperAhead(s, p)
  }

  /** On a single line the pattern says: some ASCII lowercase and some ASCII
      uppercase letter. */
  lemma MixedCaseOnOneLine(s: string)
    requires NoLineBreak(s)
    ensures MixedCasePattern(s) <==>
      (exists l | 0 <= l < |s| :: LowerAscii(s[l])) && (exists u | 0 <= u < |s| :: UpperAscii(s[u]))
  {
    if (exists l | 0 <= l < |s| :: LowerAscii(s[l])) && (exists u | 0 <= u < |s| :: UpperAscii(s[u])) {
      var l :| 0 <= l < |s| && LowerAscii(s[l]);
      var u :| 0 <= u < |s| && UpperAscii(s[u]);
      assert NoLineBreak(s[0..l]) && NoLineBreak(s[0..u]);
      assert LowerAhead(s, 0) && UpperAhead(s, 0);
    }
  }

  /** Across a line break the two letters need not be found: "a", a line
      feed, "A" is rejected. */
  lemma MixedCaseAcrossLineBreak()
    ensures !MixedCasePattern("a\nA")
  {
    var s := "a\nA";
    forall p | 0 <= p <= |s| && LowerAhead(s, p) ensures !UpperAhead(s, p) {
      var l :| p <= l < |s| && LowerAscii(s[l]) && NoLineBreak(s[p..l]);
      assert l == 0 && p == 0;
      forall u | p <= u < |s| && UpperAscii(s[u]) ensures !NoLineBreak(s[p..u]) {
        assert u == 2;
        assert s[p..u][1] == '\n';
      }
    }
  }

  /** `validateField(name, value)`: the error for one field, if any, with the
      checks in the source's order; `password` is the form's current
      password, which the confirmation is compared with. Other field names
      yield no error. */
  function ValidateField(name: string, value: string, password: string): (r: Option<string>)
    ensures name !in {"name", "email", "password", "confirmPassword"} ==> r.None?
    ensures name == "name" ==> (r.None? <==> |Trim(value)| >= 2)
    ensures name == "email" ==> (r.None? <==> EmailPattern(value))
    ensures name == "password" ==> (r.None? <==> |value| >= 6 && MixedCasePattern(value))
    ensures name == "confirmPassword" ==> (r.None? <==> value != "" && value == password)
    ensures r.Some? ==> r.value != ""
  {
    match name
    case "name" =>
      if Trim(value) == "" then Some("Full name is required")
      else if |Trim(value)| < 2 then Some("Name must be at least 2 characters")
      else None
    case "email" =>
      if Trim(value) == "" then Some("Email is required")
      else if !EmailPattern(value) then Some("Please enter a valid email address")
      else None
    case "password" =>
      if value == "" then Some("Password is required")
      else if |value| < 6 then Some("Password must be at least 6 characters")
      else if !MixedCasePattern(value) then Some("Password must contain both uppercase and lowercase letters")
      else None
    case "confirmPassword" =>
      if value == "" then Some("Please confirm your password")
      else if value != password then Some("Passwords do not match")
      else None
    case _ => None
  }

  /** An address the pattern accepts is never blank, so the email field's
      first check is subsumed by the second. */
  lemma EmailPatternNotBlank(s: string)
    requires EmailPattern(s)
    ensures !Blank(s)
  {
    var i, j :| 0 < i && i + 1 < j < |s| - 1 && s[i] == '@' && s[j] == '.'
      && AllEmailChars(s[..i]) && AllEmailChars(s[i + 1..j]) && AllEmailChars(s[j + 1..]);
    assert !IsSpace(s[i]);
  }

  datatype Field = NameField | EmailField | PasswordField | ConfirmField

  function Key(f: Field): string {
    match f
    case NameField => "name"
    case EmailField => "email"
    case PasswordField => "password"
    case ConfirmField => "confirmPassword"
  }

  datatype FormData = FormData(name: string, email: string, password: string, confirmPassword: string)

  function Value(d: FormData, f: Field): string {
    match f
    case NameField => d.name
    case EmailField => d.email
    case PasswordField => d.password
    case ConfirmField => d.confirmPassword
  }

  function WithValue(d: FormData, f: Field, v: string): (r: FormData)
    ensures Value(r, f) == v
    ensures forall g | g != f :: Value(r, g) == Value(d, g)
  {
    match f
    case NameField => d.(name := v)
    case EmailField => d.(email := v)
    case PasswordField => d.(password := v)
    case ConfirmField => d.(confirmPassword := v)
  }

  /** The error of field `f` on the whole form. */
  function ErrorOf(d: FormData, f: Field): Option<string> {
    ValidateField(Key(f), Value(d, f), d.password)
  }

  /** Field validity in plain terms. */
  predicate FieldValid(d: FormData, f: Field) {
    match f
    case NameField => |Trim(d.name)| >= 2
    case EmailField => EmailPattern(d.email)
    case PasswordField => |d.password| >= 6 && MixedCasePattern(d.password)
    case ConfirmField => d.confirmPassword != "" && d.confirmPassword == d.password
  }

  lemma ErrorOfIffInvalid(d: FormData, f: Field)
    ensures ErrorOf(d, f).None? <==> FieldValid(d, f)
  {
  }

  /** `validateField(key, value)` as an object: empty, or one entry. */
  function FieldErrorEntry(d: FormData, f: Field): (r: Dict<string>)
    ensures r == [] <==> FieldValid(d, f)
    ensures r != [] ==> r == [Entry(Key(f), ErrorOf(d, f).value)]
  {
    ErrorOfIffInvalid(d, f);
    match ErrorOf(d, f)
    case Some(msg) => [Entry(Key(f), msg)]
    case None => []
  }

  /** `Object.assign(errors, validateField(key, value))` over the four
      fields in `Object.entries` order; the keys are distinct, so each
      assignment appends. */
  function CollectErrors(d: FormData): (r: Dict<string>)
    ensures r == [] <==> FieldValid(d, NameField) && FieldValid(d, EmailField)
                         && FieldValid(d, PasswordField) && FieldValid(d, ConfirmField)
  {
    var a := FieldErrorEntry(d, NameField);
    var b := FieldErrorEntry(d, EmailField);
    var c := FieldErrorEntry(d, PasswordField);
    var e := FieldErrorEntry(d, ConfirmField);
    assert |a + b + c + e| == |a| + |b| + |c| + |e|;
    a + b + c + e
  }

  datatype FormCheck = FormCheck(ok: bool, recorded: Option<Dict<string>>, generalError: Option<string>)

  /** `validateForm()`: without accepted terms it fails with the terms
      message and leaves the recorded errors as they were (`recorded` is
      `None`); otherwise it records every field's error and succeeds iff
      there is none. */
  function ValidateForm(d: FormData, termsAccepted: bool): (r: FormCheck)
    ensures !termsAccepted ==>
      !r.ok && r.recorded.None? && r.generalError == Some("Please accept the terms and conditions")
    ensures termsAccepted ==> r.recorded.Some? && r.generalError.None?
    ensures termsAccepted ==>
      (r.ok <==> FieldValid(d, NameField) && FieldValid(d, EmailField)
                 && FieldValid(d, PasswordField) && FieldValid(d, ConfirmField))
    ensures r.ok <==> termsAccepted && r.recorded == Some([])
  {
    var errors := CollectErrors(d);
    if !termsAccepted then FormCheck(false, None, Some("Please accept the terms and conditions"))
    else FormCheck(|errors| == 0, Some(errors), None)
  }

  /** The form's state between events. */
  datatype Form = Form(data: FormData, errors: Dict<string>, generalError: string, termsAccepted: bool)

  const InitialForm := Form(FormData("", "", "", ""), [], "", false)

  predicate AllEmpty(vs: seq<string>) {
    forall i | 0 <= i < |vs| :: vs[i] == ""
  }

  /** `isFormValid`, which enables the submit button: every field non-blank,
      every recorded error empty, terms accepted. */
  predicate IsFormValid(f: Form) {
    !Blank(f.data.name) && !Blank(f.data.email) && !Blank(f.data.password) && !Blank(f.data.confirmPassword)
    && AllEmpty(Values(f.errors)) && f.termsAccepted
  }

  /** A password the case pattern accepts holds a letter, so it is not
      blank. */
  lemma MixedCaseNotBlank(s: string)
    requires MixedCasePattern(s)
    ensures !Blank(s)
  {
    var p :| 0 <= p <= |s| && LowerAhead(s, p) && UpperAhead(s, p);
    var l :| 0 <= p <= l < |s| && LowerAscii(s[l]) && NoLineBreak(s[p..l]);
    assert !IsSpace(s[l]);
  }

  /** Every field that passes validation is non-blank. */
  lemma ValidFieldsNotBlank(d: FormData)
    requires FieldValid(d, NameField) && FieldValid(d, EmailField)
    requires FieldValid(d, PasswordField) && FieldValid(d, ConfirmField)
    ensures !Blank(d.name) && !Blank(d.email) && !Blank(d.password) && !Blank(d.confirmPassword)
  {
    EmailPatternNotBlank(d.email);
    MixedCaseNotBlank(d.password);
  }

  /** A form that passes submit-time validation has non-blank fields, so once
      its errors are recorded the button is enabled. */
  lemma SubmittableFormIsValid(f: Form)
    requires ValidateForm(f.data, f.termsAccepted).ok
    ensures IsFormValid(f.(errors := ValidateForm(f.data, f.termsAccepted).recorded.value))
  {
    ValidFieldsNotBlank(f.data);
  }

  /** `{ ...errors, [key]: msg }`. */
  function Record(errors: Dict<string>, key: string, msg: string): (r: Dict<string>)
    ensures Get(r, key) == Some(msg)
    ensures forall k | k != key :: Get(r, k) == Get(errors, k)
  {
    GetSet(errors, key, msg, key);
    forall k | k != key ensures Get(Set(errors, key, msg), k) == Get(errors, k) {
      GetSet(errors, key, msg, k);
    }
    Set(errors, key, msg)
  }

  /** `handleInputChange` as written. The new value is stored, the general
      error cleared and the field's own error recorded ("" when it passes).
      When the password changes and a confirmation is present, the
      confirmation is re-validated against the form as it was before the
      event, that is against the previous password, and only a failure is
      recorded. */
  function HandleInputChangeAsWritten(f: Form, field: Field, value: string): (r: Form)
    ensures r.data == WithValue(f.data, field, value) && r.generalError == ""
    ensures field != PasswordField || f.data.confirmPassword == "" ==>
      r.errors == Record(f.errors, Key(field), ErrorOf(r.data, field).GetOr(""))
    ensures field == PasswordField && f.data.confirmPassword != "" ==>
      Get(r.errors, "password") == Some(ValidateField("password", value, f.data.password).GetOr(""))
    ensures field == PasswordField && f.data.confirmPassword != "" ==>
      var stale := ValidateField("confirmPassword", f.data.confirmPassword, f.data.password);
      Get(r.errors, "confirmPassword") == (if stale.Some? then stale else Get(f.errors, "confirmPassword"))
    ensures forall k | k != Key(field) && k != "confirmPassword" :: Get(r.errors, k) == Get(f.errors, k)
  {
    var stale := f.data;
    var data := WithValue(stale, field, value);
    var errors := Record(f.errors, Key(field), ValidateField(Key(field), value, stale.password).GetOr(""));
    var errors := if field == PasswordField && stale.confirmPassword != "" then
        match ValidateField("confirmPassword", stale.confirmPassword, stale.password)
        case Some(msg) => Record(errors, "confirmPassword", msg)
        case None => errors
      else errors;
    Form(data, errors, "", f.termsAccepted)
  }

  /** A password change that makes the two passwords equal leaves the
      "Passwords do not match" error in place, and the button disabled. */
  lemma StaleConfirmationError()
    ensures var before := Form(FormData("Jo", "jo@pets.io", "Abcdef", "Abcdefg"),
                               [Entry("confirmPassword", "Passwords do not match")], "", true);
      var after := HandleInputChangeAsWritten(before, PasswordField, "Abcdefg");
      after.data.password == after.data.confirmPassword
      && Get(after.errors, "confirmPassword") == Some("Passwords do not match")
      && !IsFormValid(after)
  {
    var before := Form(FormData("Jo", "jo@pets.io", "Abcdef", "Abcdefg"),
                       [Entry("confirmPassword", "Passwords do not match")], "", true);
    var after := HandleInputChangeAsWritten(before, PasswordField, "Abcdefg");
    StaleMismatch();
    assert Get(after.errors, "confirmPassword") == Some("Passwords do not match");
    ErrorBlocksButton(after, "confirmPassword");
  }

  /** The confirmation checked against the previous password fails. */
  lemma StaleMismatch()
    ensures ValidateField("confirmPassword", "Abcdefg", "Abcdef") == Some("Passwords do not match")
  {
    assert "Abcdefg" != "Abcdef" by { assert |"Abcdefg"| != |"Abcdef"|; }
  }

  /** A non-empty recorded error keeps the submit button disabled. */
  lemma ErrorBlocksButton(f: Form, key: string)
    requires Get(f.errors, key).Some? && Get(f.errors, key).value != ""
    ensures !IsFormValid(f)
  {
    var i := FirstIndex(f.errors, key);
    assert Values(f.errors)[i] != "";
  }

  /** `handleInputChange` with the confirmation compared with the new
      password, and its error cleared when it now passes. */
  function HandleInputChange(f: Form, field: Field, value: string): (r: Form)
    ensures r.data == WithValue(f.data, field, value) && r.generalError == ""
    ensures r.termsAccepted == f.termsAccepted
    ensures Get(r.errors, Key(field)) == Some(ErrorOf(r.data, field).GetOr(""))
    ensures field == PasswordField && f.data.confirmPassword != "" ==>
      Get(r.errors, "confirmPassword") == Some(ErrorOf(r.data, ConfirmField).GetOr(""))
  {
    var data := WithValue(f.data, field, value);
    var errors := Record(f.errors, Key(field), ErrorOf(data, field).GetOr(""));
    var errors := if field == PasswordField && data.confirmPassword != "" then
        Record(errors, "confirmPassword", ErrorOf(data, ConfirmField).GetOr(""))
      else errors;
    Form(data, errors, "", f.termsAccepted)
  }

  const FieldKeys: set<string> := {"name", "email", "password", "confirmPassword"}

  /** The recorded errors agree with the form: they are keyed by field
      names, every recorded error is the field's current error ("" when it
      passes), and every field that holds text has its error recorded. */
  ghost predicate ErrorsCurrent(f: Form) {
    UniqueKeys(f.errors) && Keys(f.errors) <= FieldKeys
    && forall g: Field ::
      (Get(f.errors, Key(g)).Some? ==> Get(f.errors, Key(g)) == Some(ErrorOf(f.data, g).GetOr("")))
      && (Value(f.data, g) != "" ==> Get(f.errors, Key(g)).Some?)
  }

  lemma InitialErrorsCurrent()
    ensures ErrorsCurrent(InitialForm)
  {
  }

  lemma KeyInjective(g: Field, h: Field)
    ensures Key(g) == Key(h) <==> g == h
  {
  }

  /** The corrected handler keeps the recorded errors current. */
  lemma {:induction false} HandleInputChangeKeepsErrorsCurrent(f: Form, field: Field, value: string)
    requires ErrorsCurrent(f)
    ensures ErrorsCurrent(HandleInputChange(f, field, value))
  {
    var r := HandleInputChange(f, field, value);
    var e1 := Record(f.errors, Key(field), ErrorOf(r.data, field).GetOr(""));
    SetKeepsUnique(f.errors, Key(field), ErrorOf(r.data, field).GetOr(""));
    if field == PasswordField && r.data.confirmPassword != "" {
      SetKeepsUnique(e1, "confirmPassword", ErrorOf(r.data, ConfirmField).GetOr(""));
    }
    forall g: Field ensures
      (Get(r.errors, Key(g)).Some? ==> Get(r.errors, Key(g)) == Some(ErrorOf(r.data, g).GetOr("")))
      && (Value(r.data, g) != "" ==> Get(r.errors, Key(g)).Some?)
    {
      KeyInjective(g, field);
      KeyInjective(g, ConfirmField);
      var data := r.data;
      var e1 := Record(f.errors, Key(field), ErrorOf(data, field).GetOr(""));
      if g != field {
        assert Value(data, g) == Value(f.data, g);
        assert Get(e1, Key(g)) == Get(f.errors, Key(g));
        if g == ConfirmField && field == PasswordField && data.confirmPassword == "" {
          assert ErrorOf(data, g) == ErrorOf(f.data, g);
        } else if g != ConfirmField {
          assert ErrorOf(data, g) == ErrorOf(f.data, g);
        } else if field != PasswordField {
          assert data.password == f.data.password;
          assert ErrorOf(data, g) == ErrorOf(f.data, g);
        }
      }
    }
  }

  /** With current errors, an enabled submit button means the form passes
      submit-time validation. */
  lemma {:induction false} EnabledButtonValidates(f: Form)
    requires ErrorsCurrent(f)
    requires IsFormValid(f)
    ensures ValidateForm(f.data, f.termsAccepted).ok
  {
    var d := f.data;
    forall g: Field ensures FieldValid(d, g) {
      assert Value(d, g) != "" by {
        match g
        case NameField => assert !Blank(d.name);
        case EmailField => assert !Blank(d.email);
        case PasswordField => assert !Blank(d.password);
        case ConfirmField => assert !Blank(d.confirmPassword);
      }
      var e := Get(f.errors, Key(g));
      assert e.Some?;
      ValuesGet(f.errors, Key(g));
      assert e.value == "";
      ErrorOfIffInvalid(d, g);
    }
    assert FieldValid(d, NameField) && FieldValid(d, EmailField);
    assert FieldValid(d, PasswordField) && FieldValid(d, ConfirmField);
  }

  /** With current errors and every field valid, each recorded error is
      empty. */
  lemma RecordedErrorEmpty(f: Form, i: int)
    requires ErrorsCurrent(f) && 0 <= i < |f.errors|
    requires forall g: Field :: FieldValid(f.data, g)
    ensures f.errors[i].value == ""
  {
    var k := f.errors[i].key;
    KeysIndex(f.errors, k);
    assert k in FieldKeys;
    var g := if k == "name" then NameField else if k == "email" then EmailField
             else if k == "password" then PasswordField else ConfirmField;
    assert Key(g) == k;
    GetAt(f.errors, i);
    ErrorOfIffInvalid(f.data, g);
  }

  /** With current errors, a form that passes submit-time validation has
      every recorded error empty and its submit button enabled. */
  lemma {:induction false} ValidatingFormHasButtonEnabled(f: Form)
    requires ErrorsCurrent(f)
    requires ValidateForm(f.data, f.termsAccepted).ok
    ensures AllEmpty(Values(f.errors)) && IsFormValid(f)
  {
    var d := f.data;
    ValidFieldsNotBlank(d);
    assert forall g: Field :: FieldValid(d, g) by {
      forall g: Field ensures FieldValid(d, g) {
        match g
        case NameField =>
        case EmailField =>
        case PasswordField =>
        case ConfirmField =>
      }
    }
    forall i | 0 <= i < |f.errors| ensures Values(f.errors)[i] == "" {
      RecordedErrorEmpty(f, i);
    }
  }

  /** Every value of an object is what `Get` reads for some key. */
  lemma {:induction false} ValuesGet(d: Dict<string>, k: string)
    requires Get(d, k).Some?
    ensures Get(d, k).value in Values(d)
    decreases |d|
  {
    if d[0].key != k {
      ValuesGet(d[1..], k);
    }
  }

  /** The text shown for an error thrown by the sign-up call, from its
      message (`None` when it has none): the known service messages are
      recognised by substring, the first match in the source's order wins;
      any other non-empty message is shown as it is. */
  function SubmitErrorText(message: Option<string>): (r: string)
    ensures r != ""
    ensures message.Some? && Contains(message.value, "User already registered") ==>
      r == "An account with this email already exists. Please sign in instead or use a different email address."
    ensures message.Some? && !Contains(message.value, "User already registered")
            && Contains(message.value, "Password should be at least 6 characters") ==>
      r == "Password must be at least 6 characters long."
    ensures message.Some? && !Contains(message.value, "User already registered")
            && !Contains(message.value, "Password should be at least 6 characters")
            && Contains(message.value, "Signup requires a valid password") ==>
      r == "Please enter a valid password."
    ensures (message.None? || !(Contains(message.value, "User already registered")
            || Contains(message.value, "Password should be at least 6 characters")
            || Contains(message.value, "Signup requires a valid password"))) ==>
      r == OptOr(message, "Failed to create account. Please try again.")
  {
    if message.Some? && Contains(message.value, "User already registered") then
      "An account with this email already exists. Please sign in instead or use a different email address."
    else if message.Some? && Contains(message.value, "Password should be at least 6 characters") then
      "Password must be at least 6 characters long."
    else if message.Some? && Contains(message.value, "Signup requires a valid password") then
      "Please enter a valid password."
    else OptOr(message, "Failed to create account. Please try again.")
  }

  /** How the sign-up call ended: an account was created, the service
      answered without a user, or it threw. */
  datatype SignUpOutcome = Created | NoUserReturned | Threw(message: Option<string>)

  /** The general error after a submission: none on success. */
  function SubmitError(o: SignUpOutcome): (r: Option<string>)
    ensures r.None? <==> o.Created?
    ensures o.NoUserReturned? ==> r == Some("Account creation failed. Please try again.")
    ensures o.Threw? ==> r == Some(SubmitErrorText(o.message))
  {
    match o
    case Created => None
    case NoUserReturned => Some("Account creation failed. Please try again.")
    case Threw(m) => Some(SubmitErrorText(m))
  }

  /** A service message that starts with "User already registered" is
      reported as an existing account, whatever else it names. */
  lemma FirstKnownMessageWins(rest: string)
    ensures SubmitErrorText(Some("User already registered" + rest)) ==
      "An account with this email already exists. Please sign in instead or use a different email address."
  {
    var m := "User already registered" + rest;
    assert m[0..|"User already registered"|] == "User already registered";
    assert OccursAt(m, "User already registered", 0);
  }
}

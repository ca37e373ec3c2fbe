/** The registration form: field validation with password rules, the
    username derived from the names, and the request it sends. */
module RegisterForm {
  import opened Base
  import opened Text
  import opened Patterns

  datatype FormData = FormData(
    firstName: string, lastName: string, email: string, phone: string,
    password: string, confirmPassword: string, agreeToTerms: bool)

  const EmptyForm := FormData("", "", "", "", "", "", false)

  const FirstNameRequired := "First name is required"
  const LastNameRequired := "Last name is required"
  const PasswordRequired := "Password is required"
  const PasswordTooShort := "Password must be at least 8 characters"
  const PasswordTooWeak := "Password must contain at least one uppercase letter, one lowercase letter, and one number"
  const ConfirmRequired := "Please confirm your password"
  const PasswordsDiffer := "Passwords do not match"
  const TermsRequired := "You must agree to the terms and conditions"
  const Registered := "Account created successfully! Please sign in to continue."
  const MinPasswordLength := 8

  /** The characters a regular-expression `.` does not match. */
  predicate IsLineBreak(c: char)
  {
    c in {'\n', '\r', '\U{2028}', '\U{2029}'}
  }

  /** No line break in `s[i..j]`. */
  predicate OnOneLine(s: string, i: int, j: int)
  {
    forall k :: 0 <= i <= k < j <= |s| ==> !IsLineBreak(s[k])
  }

  /** `(?=.*[class])` tried at position `i`: a character of the class
      follows on the same line. */
  predicate Reaches(s: string, i: int, kind: char -> bool)
  {
    exists j :: 0 <= i <= j < |s| && kind(s[j]) && OnOneLine(s, i, j)
  }

  /** `/(?=.*[a-z])(?=.*[A-Z])(?=.*\d)/`, unanchored: at some position all
      three look-aheads succeed. */
  predicate MixedClasses(s: string)
  {
    exists i :: 0 <= i <= |s| && Reaches(s, i, IsAsciiLower) && Reaches(s, i, IsAsciiUpper) && Reaches(s, i, IsDigit)
  }

  predicate Has(s: string, kind: char -> bool)
  {
    exists j :: 0 <= j < |s| && kind(s[j])
  }

  /** On a single line the rule reads plainly: a lowercase letter, an
      uppercase letter and a digit somewhere. */
  lemma MixedClassesOneLine(s: string)
    requires OnOneLine(s, 0, |s|)
    ensures MixedClasses(s) <==> Has(s, IsAsciiLower) && Has(s, IsAsciiUpper) && Has(s, IsDigit)
  {
    if Has(s, IsAsciiLower) && Has(s, IsAsciiUpper) && Has(s, IsDigit) {
      var a :| 0 <= a < |s| && IsAsciiLower(s[a]);
      var b :| 0 <= b < |s| && IsAsciiUpper(s[b]);
      var c :| 0 <= c < |s| && IsDigit(s[c]);
      assert OnOneLine(s, 0, a) && OnOneLine(s, 0, b) && OnOneLine(s, 0, c);
      assert Reaches(s, 0, IsAsciiLower) && Reaches(s, 0, IsAsciiUpper) && Reaches(s, 0, IsDigit);
    }
  }

  /** Across a line break the three classes must meet on one line. */
  lemma MixedClassesNeedOneLine()
    ensures !MixedClasses("aB\n1")
    ensures MixedClasses("aB1")
  {
    var s := "aB\n1";
    forall i | 0 <= i <= |s| ensures !(Reaches(s, i, IsAsciiLower) && Reaches(s, i, IsDigit)) {
      if Reaches(s, i, IsDigit) {
        var j :| 0 <= i <= j < |s| && IsDigit(s[j]) && OnOneLine(s, i, j);
        assert j == 3;
        assert IsLineBreak(s[2]);
        assert i == 3;
      }
    }
    MixedClassesOneLine("aB1");
    assert IsAsciiLower("aB1"[0]) && IsAsciiUpper("aB1"[1]) && IsDigit("aB1"[2]);
  }

  function NameError(name: string, message: string): (r: Option<string>)
    ensures r.Some? <==> IsBlank(Browser, name)
    ensures r.Some? ==> r.value == message
  {
    TrimEmptyIffBlank(Browser, name);
    if Trim(Browser, name) == "" then Some(message) else None
  }

  /** Missing, then too short, then lacking a character class. */
  function PasswordError(password: string): (r: Option<string>)
    ensures r == Some(PasswordRequired) <==> password == ""
    ensures r == Some(PasswordTooShort) <==> 0 < |password| < MinPasswordLength
    ensures r == Some(PasswordTooWeak) <==> |password| >= MinPasswordLength && !MixedClasses(password)
    ensures r.None? <==> |password| >= MinPasswordLength && MixedClasses(password)
  {
    if password == "" then Some(PasswordRequired)
    else if |password| < MinPasswordLength then Some(PasswordTooShort)
    else if !MixedClasses(password) then Some(PasswordTooWeak)
    else None
  }

  function ConfirmError(password: string, confirm: string): (r: Option<string>)
    ensures r == Some(ConfirmRequired) <==> confirm == ""
    ensures r == Some(PasswordsDiffer) <==> confirm != "" && confirm != password
    ensures r.None? <==> confirm != "" && confirm == password
  {
    if confirm == "" then Some(ConfirmRequired)
    else if password != confirm then Some(PasswordsDiffer)
    else None
  }

  function TermsError(agreed: bool): (r: Option<string>)
    ensures r.Some? <==> !agreed
  {
    if !agreed then Some(TermsRequired) else None
  }

  /** The dictionary filled field by field in `validateForm`'s order. */
  function ErrorMap(firstName: Option<string>, lastName: Option<string>, email: Option<string>,
                    password: Option<string>, confirm: Option<string>, terms: Option<string>): map<string, string>
  {
    Put(Put(Put(Put(Put(Put(map[], "firstName", firstName), "lastName", lastName), "email", email),
      "password", password), "confirmPassword", confirm), "agreeToTerms", terms)
  }

  /** One entry per failing field, holding that field's message. */
  lemma ErrorMapEntries(firstName: Option<string>, lastName: Option<string>, email: Option<string>,
                        password: Option<string>, confirm: Option<string>, terms: Option<string>)
    ensures var m := ErrorMap(firstName, lastName, email, password, confirm, terms);
      m.Keys == (if firstName.Some? then {"firstName"} else {}) + (if lastName.Some? then {"lastName"} else {})
        + (if email.Some? then {"email"} else {}) + (if password.Some? then {"password"} else {})
        + (if confirm.Some? then {"confirmPassword"} else {}) + (if terms.Some? then {"agreeToTerms"} else {})
      && (confirm.Some? ==> m["confirmPassword"] == confirm.value) && (terms.Some? ==> m["agreeToTerms"] == terms.value)
  {
  }

  function FormErrors(f: FormData): map<string, string>
  {
    ErrorMap(NameError(f.firstName, FirstNameRequired), NameError(f.lastName, LastNameRequired),
      LooseEmailError(f.email), PasswordError(f.password), ConfirmError(f.password, f.confirmPassword),
      TermsError(f.agreeToTerms))
  }

  predicate FormValid(f: FormData)
  {
    !IsBlank(Browser, f.firstName) && !IsBlank(Browser, f.lastName) && LooseEmail(f.email)
    && |f.password| >= MinPasswordLength && MixedClasses(f.password)
    && f.confirmPassword == f.password && f.agreeToTerms
  }

  /** The form validates exactly when the names are not blank, the address
      passes, the password is long and mixed enough and confirmed, and the
      terms are accepted; a failing field's entry is its own message. */
  lemma FormErrorsMeaning(f: FormData)
    ensures FormErrors(f) == map[] <==> FormValid(f)
    ensures FormErrors(f).Keys <= {"firstName", "lastName", "email", "password", "confirmPassword", "agreeToTerms"}
    ensures !f.agreeToTerms ==> FormErrors(f)["agreeToTerms"] == TermsRequired
    ensures f.confirmPassword != "" && f.confirmPassword != f.password ==> FormErrors(f)["confirmPassword"] == PasswordsDiffer
  {
    ErrorMapEntries(NameError(f.firstName, FirstNameRequired), NameError(f.lastName, LastNameRequired),
      LooseEmailError(f.email), PasswordError(f.password), ConfirmError(f.password, f.confirmPassword),
      TermsError(f.agreeToTerms));
    if !FormValid(f) {
      assert FormErrors(f).Keys != {};
    }
  }

  /** `${firstName}${lastName}`, lower-cased, with every white-space run
      removed. */
  function Username(firstName: string, lastName: string): (r: string)
    ensures forall i :: 0 <= i < |r| ==> !IsSpace(Browser, r[i])
    ensures |r| <= |firstName| + |lastName|
    ensures r == Lower(WithoutSpaces(Browser, firstName)) + Lower(WithoutSpaces(Browser, lastName))
  {
    WithoutSpacesLower(firstName + lastName);
    WithoutSpacesAppend(Browser, firstName, lastName);
    LowerAppend(WithoutSpaces(Browser, firstName), WithoutSpaces(Browser, lastName));
    WithoutSpaces(Browser, Lower(firstName + lastName))
  }

  /** For names without white space the username is just their lower-cased
      concatenation. */
  lemma UsernameOfPlainNames(firstName: string, lastName: string)
    requires forall i :: 0 <= i < |firstName + lastName| ==> !IsSpace(Browser, (firstName + lastName)[i])
    ensures Username(firstName, lastName) == Lower(firstName + lastName)
  {
    WithoutSpacesNoop(Browser, firstName + lastName);
    WithoutSpacesLower(firstName + lastName);
  }

  /** The body of the register request. */
  datatype RegisterPayload = RegisterPayload(
    username: string, email: string, password: string,
    firstName: string, lastName: string, passwordConfirm: string)

  function Payload(f: FormData): (r: RegisterPayload)
    ensures r.username == Username(f.firstName, f.lastName)
    ensures r.email == f.email && r.password == f.password && r.passwordConfirm == f.confirmPassword
    ensures r.firstName == f.firstName && r.lastName == f.lastName
  {
    RegisterPayload(Username(f.firstName, f.lastName), f.email, f.password, f.firstName, f.lastName, f.confirmPassword)
  }

  /** The body of `validateForm`: each failing field's message is recorded
      under its name, in order. */
  method BuildErrors(f: FormData) returns (newErrors: map<string, string>)
    ensures newErrors == FormErrors(f)
  {
    newErrors := map[];
    var firstName := NameError(f.firstName, FirstNameRequired);
    if firstName.Some? {
      newErrors := newErrors["firstName" := firstName.value];
    }
    var lastName := NameError(f.lastName, LastNameRequired);
    if lastName.Some? {
      newErrors := newErrors["lastName" := lastName.value];
    }
    ghost var upToLast := Put(Put(map[], "firstName", firstName), "lastName", lastName);
    assert newErrors == upToLast;
    var email := LooseEmailError(f.email);
    if email.Some? {
      newErrors := newErrors["email" := email.value];
    }
    assert newErrors == Put(upToLast, "email", email);
    var password := PasswordError(f.password);
    if password.Some? {
      newErrors := newErrors["password" := password.value];
    }
    ghost var upToPassword := Put(Put(upToLast, "email", email), "password", password);
    assert newErrors == upToPassword;
    var confirm := ConfirmError(f.password, f.confirmPassword);
    if confirm.Some? {
      newErrors := newErrors["confirmPassword" := confirm.value];
    }
    assert newErrors == Put(upToPassword, "confirmPassword", confirm);
    var terms := TermsError(f.agreeToTerms);
    if terms.Some? {
      newErrors := newErrors["agreeToTerms" := terms.value];
    }
  }

  class Page {
    var formData: FormData
    var formErrors: map<string, string>

    constructor ()
      ensures formData == EmptyForm && formErrors == map[]
    {
      formData := EmptyForm;
      formErrors := map[];
    }

    method ValidateForm() returns (ok: bool)
      modifies this
      ensures formErrors == FormErrors(formData) && formData == old(formData)
      ensures ok <==> FormValid(formData)
    {
      var newErrors := BuildErrors(formData);
      formErrors := newErrors;
      FormErrorsMeaning(formData);
      assert |newErrors| == 0 <==> newErrors == map[];
      ok := |newErrors| == 0;
    }

    /** `handleChange` for a text input: store the value, blank that field's
      error, and ask the session to drop its error when it has one. */
    method EditText(field: string, value: string, globalError: Option<string>) returns (clearsGlobalError: bool)
      requires field in {"firstName", "lastName", "email", "phone", "password", "confirmPassword"}
      modifies this
      ensures formData == old(
        if field == "firstName" then formData.(firstName := value)
        else if field == "lastName" then formData.(lastName := value)
        else if field == "email" then formData.(email := value)
        else if field == "phone" then formData.(phone := value)
        else if field == "password" then formData.(password := value)
        else formData.(confirmPassword := value))
      ensures formErrors == ClearedError(old(formErrors), field)
      ensures clearsGlobalError <==> globalError.Some? && globalError.value != ""
    {
      if field == "firstName" {
        formData := formData.(firstName := value);
      } else if field == "lastName" {
        formData := formData.(lastName := value);
      } else if field == "email" {
        formData := formData.(email := value);
      } else if field == "phone" {
        formData := formData.(phone := value);
      } else if field == "password" {
        formData := formData.(password := value);
      } else {
        formData := formData.(confirmPassword := value);
      }
      formErrors := ClearedError(formErrors, field);
      clearsGlobalError := globalError.Some? && globalError.value != "";
    }

    /** `handleChange` for the terms checkbox, which stores `checked`. */
    method EditTerms(checked: bool, globalError: Option<string>) returns (clearsGlobalError: bool)
      modifies this
      ensures formData == old(formData).(agreeToTerms := checked)
      ensures formErrors == ClearedError(old(formErrors), "agreeToTerms")
      ensures clearsGlobalError <==> globalError.Some? && globalError.value != ""
    {
      formData := formData.(agreeToTerms := checked);
      formErrors := ClearedError(formErrors, "agreeToTerms");
      clearsGlobalError := globalError.Some? && globalError.value != "";
    }

    /** `handleSubmit`: an invalid form sends nothing; a valid one sends its
      payload, and only a successful registration goes to the sign-in page
      with a notice. */
    method HandleSubmit(result: Outcome<()>) returns (sent: Option<RegisterPayload>, nav: Nav, notice: Option<string>)
      modifies this
      ensures formData == old(formData) && formErrors == FormErrors(formData)
      ensures sent.Some? <==> FormValid(formData)
      ensures sent.Some? ==> sent.value == Payload(formData)
      ensures nav == (if sent.Some? && result.Ok? then Go("/login") else Stay)
      ensures notice == (if sent.Some? && result.Ok? then Some(Registered) else None)
    {
      var ok := ValidateForm();
      nav, notice := Stay, None;
      if !ok {
        sent := None;
        return;
      }
      sent := Some(Payload(formData));
      if result.Ok? {
        nav, notice := Go("/login"), Some(Registered);
      }
    }
  }
}

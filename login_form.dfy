/** The sign-in form: two validated fields, the credentials it hands to the
    session, and where it goes once signed in. */
module LoginForm {
  import opened Base
  import opened Patterns

  datatype FormData = FormData(email: string, password: string, rememberMe: bool)

  const EmptyForm := FormData("", "", false)
  const PasswordRequired := "Password is required"
  const PasswordTooShort := "Password must be at least 6 characters"
  const MinPasswordLength := 6

  function PasswordError(password: string): (r: Option<string>)
    ensures r == Some(PasswordRequired) <==> password == ""
    ensures r == Some(PasswordTooShort) <==> 0 < |password| < MinPasswordLength
    ensures r.None? <==> |password| >= MinPasswordLength
  {
    if password == "" then Some(PasswordRequired)
    else if |password| < MinPasswordLength then Some(PasswordTooShort)
    else None
  }

  function FormErrors(f: FormData): map<string, string>
  {
    Put(Put(map[], "email", LooseEmailError(f.email)), "password", PasswordError(f.password))
  }

  /** At most one message per field, none for `rememberMe`, and an empty
      dictionary exactly when the address passes and the password has six
      characters. */
  lemma FormErrorsMeaning(f: FormData)
    ensures FormErrors(f).Keys <= {"email", "password"}
    ensures FormErrors(f) == map[] <==> LooseEmail(f.email) && |f.password| >= MinPasswordLength
    ensures f.email == "" ==> FormErrors(f)["email"] == EmailRequired
    ensures f.password == "" ==> FormErrors(f)["password"] == PasswordRequired
  {
    var e, p := LooseEmailError(f.email), PasswordError(f.password);
    if e.Some? {
      assert "email" in FormErrors(f);
    } else if p.Some? {
      assert "password" in FormErrors(f);
    }
  }

  /** What `login` receives: the address and the password only. */
  datatype Credentials = Credentials(email: string, password: string)

  /** `location.state?.from?.pathname || '/'`. */
  function RedirectTarget(fromPathname: Option<string>): (r: string)
    ensures fromPathname.Some? && fromPathname.value != "" ==> r == fromPathname.value
    ensures fromPathname.None? || fromPathname.value == "" ==> r == "/"
  {
    if fromPathname.Some? && fromPathname.value != "" then fromPathname.value else "/"
  }

  class Page {
    var formData: FormData
    var formErrors: map<string, string>
    const from: string

    constructor (fromPathname: Option<string>)
      ensures formData == EmptyForm && formErrors == map[]
      ensures from == RedirectTarget(fromPathname)
    {
      formData := EmptyForm;
      formErrors := map[];
      from := RedirectTarget(fromPathname);
    }

    /** `validateForm`: the email check, then the password check, into a
      fresh dictionary. */
    method ValidateForm() returns (ok: bool)
      modifies this
      ensures formErrors == FormErrors(formData) && formData == old(formData)
      ensures ok <==> LooseEmail(formData.email) && |formData.password| >= MinPasswordLength
    {
      var newErrors: map<string, string> := map[];
      if formData.email == "" {
        newErrors := newErrors["email" := EmailRequired];
      } else if !LooseEmail(formData.email) {
        newErrors := newErrors["email" := EmailInvalid];
      }
      if formData.password == "" {
        newErrors := newErrors["password" := PasswordRequired];
      } else if |formData.password| < MinPasswordLength {
        newErrors := newErrors["password" := PasswordTooShort];
      }
      formErrors := newErrors;
      FormErrorsMeaning(formData);
      assert |newErrors| == 0 <==> newErrors == map[];
      ok := |newErrors| == 0;
    }

    /** `handleChange` for the address or the password. */
    method EditText(field: string, value: string, globalError: Option<string>) returns (clearsGlobalError: bool)
      requires field in {"email", "password"}
      modifies this
      ensures formData == old(if field == "email" then formData.(email := value) else formData.(password := value))
      ensures formErrors == ClearedError(old(formErrors), field)
      ensures clearsGlobalError <==> globalError.Some? && globalError.value != ""
    {
      if field == "email" {
        formData := formData.(email := value);
      } else {
        formData := formData.(password := value);
      }
      formErrors := ClearedError(formErrors, field);
      clearsGlobalError := globalError.Some? && globalError.value != "";
    }

    /** `handleChange` for the remember-me checkbox. */
    method EditRememberMe(checked: bool, globalError: Option<string>) returns (clearsGlobalError: bool)
      modifies this
      ensures formData == old(formData).(rememberMe := checked)
      ensures formErrors == ClearedError(old(formErrors), "rememberMe")
      ensures clearsGlobalError <==> globalError.Some? && globalError.value != ""
    {
      formData := formData.(rememberMe := checked);
      formErrors := ClearedError(formErrors, "rememberMe");
      clearsGlobalError := globalError.Some? && globalError.value != "";
    }

    /** `handleSubmit`: a valid form hands its address and password to the
      session; `rememberMe` is never sent. */
    method HandleSubmit() returns (sent: Option<Credentials>)
      modifies this
      ensures formData == old(formData) && formErrors == FormErrors(formData)
      ensures sent.Some? <==> LooseEmail(formData.email) && |formData.password| >= MinPasswordLength
      ensures sent.Some? ==> sent.value == Credentials(formData.email, formData.password)
    {
      var ok := ValidateForm();
      sent := if ok then Some(Credentials(formData.email, formData.password)) else None;
    }

    /** The redirect effect: once the session is signed in, go to `from`. */
    method RedirectIfSignedIn(isAuthenticated: bool) returns (nav: Nav)
      ensures nav == if isAuthenticated then Go(from) else Stay
    {
      nav := if isAuthenticated then Go(from) else Stay;
    }
  }
}

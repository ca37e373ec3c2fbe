/** The contact page's form: field validation into an error dictionary,
    field edits that clear their own error, and the submit gate and reset. */
module ContactForm {
  import opened Base
  import opened Text
  import opened Patterns

  datatype FormData = FormData(
    name: string, email: string, phone: string, subject: string,
    category: string, message: string, newsletter: bool)

  const DefaultForm := FormData("", "", "", "", "general", "", false)

  const NameRequired := "Name is required"
  const NameTooShort := "Name must be at least 2 characters"
  const EmailRequired := "Email is required"
  const EmailInvalid := "Please enter a valid email address"
  const PhoneInvalid := "Please enter a valid phone number"
  const SubjectRequired := "Subject is required"
  const SubjectTooShort := "Subject must be at least 5 characters"
  const MessageRequired := "Message is required"
  const MessageTooShort := "Message must be at least 10 characters"
  const MessageTooLong := "Message must be less than 1000 characters"
  const MessageMaxLength := 1000

  /** `/^[\+]?[1-9][\d]{0,15}$/`: an optional '+', a non-zero digit, then
      at most fifteen digits. */
  predicate PhonePattern(t: string)
  {
    var u := if |t| > 0 && t[0] == '+' then t[1..] else t;
    1 <= |u| <= 16 && '1' <= u[0] <= '9' && AllDigits(u)
  }

  function NameError(name: string): (r: Option<string>)
    ensures r == Some(NameRequired) <==> IsBlank(Browser, name)
    ensures r == Some(NameTooShort) <==> !IsBlank(Browser, name) && |name| < 2
    ensures r.None? <==> !IsBlank(Browser, name) && |name| >= 2
  {
    TrimEmptyIffBlank(Browser, name);
    if Trim(Browser, name) == "" then Some(NameRequired)
    else if |name| < 2 then Some(NameTooShort)
    else None
  }

  function EmailError(email: string): (r: Option<string>)
    ensures r == Some(EmailRequired) <==> IsBlank(Browser, email)
    ensures r == Some(EmailInvalid) <==> !IsBlank(Browser, email) && !AnchoredEmail(email)
    ensures r.None? <==> AnchoredEmail(email)
  {
    TrimEmptyIffBlank(Browser, email);
    if Trim(Browser, email) == "" then Some(EmailRequired)
    else if !AnchoredEmail(email) then Some(EmailInvalid)
    else
      assert !IsSpace(Browser, email[0]) by { AnchoredEmailShape(email, 0, 0); }
      None
  }

  /** An empty phone is never an error; any other is checked with its white
      space removed. */
  function PhoneError(phone: string): (r: Option<string>)
    ensures r.None? <==> phone == "" || PhonePattern(WithoutSpaces(Browser, phone))
    ensures r.Some? ==> r.value == PhoneInvalid
  {
    if phone != "" && !PhonePattern(WithoutSpaces(Browser, phone)) then Some(PhoneInvalid) else None
  }

  function SubjectError(subject: string): (r: Option<string>)
    ensures r == Some(SubjectRequired) <==> IsBlank(Browser, subject)
    ensures r == Some(SubjectTooShort) <==> !IsBlank(Browser, subject) && |subject| < 5
    ensures r.None? <==> !IsBlank(Browser, subject) && |subject| >= 5
  {
    TrimEmptyIffBlank(Browser, subject);
    if Trim(Browser, subject) == "" then Some(SubjectRequired)
    else if |subject| < 5 then Some(SubjectTooShort)
    else None
  }

  function MessageError(message: string): (r: Option<string>)
    ensures r == Some(MessageRequired) <==> IsBlank(Browser, message)
    ensures r == Some(MessageTooShort) <==> !IsBlank(Browser, message) && |message| < 10
    ensures r == Some(MessageTooLong) <==> !IsBlank(Browser, message) && |message| > MessageMaxLength
    ensures r.None? <==> !IsBlank(Browser, message) && 10 <= |message| <= MessageMaxLength
  {
    TrimEmptyIffBlank(Browser, message);
    if Trim(Browser, message) == "" then Some(MessageRequired)
    else if |message| < 10 then Some(MessageTooShort)
    else if |message| > MessageMaxLength then Some(MessageTooLong)
    else None
  }

  const FieldNames: set<string> := {"name", "email", "phone", "subject", "message"}

  /** The dictionary filled field by field in the order name, email,
      phone, subject, message. */
  function ErrorMap(name: Option<string>, email: Option<string>, phone: Option<string>,
                    subject: Option<string>, message: Option<string>): map<string, string>
  {
    Put(Put(Put(Put(Put(map[], "name", name), "email", email), "phone", phone), "subject", subject), "message", message)
  }

  /** The dictionary holds exactly one entry per failing field, with that
      field's message, and nothing else. */
  lemma ErrorMapEntries(name: Option<string>, email: Option<string>, phone: Option<string>,
                        subject: Option<string>, message: Option<string>)
    ensures var m := ErrorMap(name, email, phone, subject, message);
      m.Keys == (if name.Some? then {"name"} else {}) + (if email.Some? then {"email"} else {})
        + (if phone.Some? then {"phone"} else {}) + (if subject.Some? then {"subject"} else {})
        + (if message.Some? then {"message"} else {})
      && (name.Some? ==> m["name"] == name.value) && (email.Some? ==> m["email"] == email.value)
      && (phone.Some? ==> m["phone"] == phone.value) && (subject.Some? ==> m["subject"] == subject.value)
      && (message.Some? ==> m["message"] == message.value)
  {
  }

  function FormErrors(f: FormData): map<string, string>
  {
    ErrorMap(NameError(f.name), EmailError(f.email), PhoneError(f.phone), SubjectError(f.subject), MessageError(f.message))
  }

  predicate FormValid(f: FormData)
  {
    NameError(f.name).None? && EmailError(f.email).None? && PhoneError(f.phone).None?
    && SubjectError(f.subject).None? && MessageError(f.message).None?
  }

  /** The dictionary is empty exactly when every field passes, and it only
      ever names the five validated fields. */
  lemma FormErrorsEmptyIffValid(f: FormData)
    ensures FormErrors(f) == map[] <==> FormValid(f)
    ensures FormErrors(f).Keys <= FieldNames
  {
    ErrorMapEntries(NameError(f.name), EmailError(f.email), PhoneError(f.phone), SubjectError(f.subject), MessageError(f.message));
    if !FormValid(f) {
      assert FormErrors(f).Keys != {};
    }
  }

  /** The default form is not submittable: name, email, subject and
      message are required. */
  lemma DefaultFormInvalid()
    ensures FormErrors(DefaultForm).Keys == {"name", "email", "subject", "message"}
  {
    var e := FormErrors(DefaultForm);
    assert IsBlank(Browser, "");
    ErrorMapEntries(NameError(""), EmailError(""), PhoneError(""), SubjectError(""), MessageError(""));
  }

  /** The body of `validateForm`: a message is recorded under a field's
      name, field by field, when that field fails. */
  method BuildErrors(f: FormData) returns (newErrors: map<string, string>)
    ensures newErrors == FormErrors(f)
  {
    newErrors := map[];
    var name := NameError(f.name);
    if name.Some? {
      newErrors := newErrors["name" := name.value];
    }
    assert newErrors == Put(map[], "name", name);
    var email := EmailError(f.email);
    if email.Some? {
      newErrors := newErrors["email" := email.value];
    }
    ghost var upToEmail := Put(Put(map[], "name", name), "email", email);
    assert newErrors == upToEmail;
    var phone := PhoneError(f.phone);
    if phone.Some? {
      newErrors := newErrors["phone" := phone.value];
    }
    assert newErrors == Put(upToEmail, "phone", phone);
    var subject := SubjectError(f.subject);
    if subject.Some? {
      newErrors := newErrors["subject" := subject.value];
    }
    assert newErrors == Put(Put(upToEmail, "phone", phone), "subject", subject);
    var message := MessageError(f.message);
    if message.Some? {
      newErrors := newErrors["message" := message.value];
    }
  }

  /** The result of posting the form: an answer from the server (its success
      flag and its errors, if any), or a thrown error carrying errors, if any. */
  datatype SubmitResult =
    | Answered(success: bool, errors: Option<map<string, string>>)
    | Threw(thrownErrors: Option<map<string, string>>)

  class Page {
    var formData: FormData
    var errors: map<string, string>
    var isSubmitting: bool
    var isSubmitted: bool
    var submitStatus: string

    constructor ()
      ensures formData == DefaultForm && errors == map[]
      ensures !isSubmitting && !isSubmitted && submitStatus == ""
    {
      formData := DefaultForm;
      errors := map[];
      isSubmitting := false;
      isSubmitted := false;
      submitStatus := "";
    }

    /** `validateForm`: build the dictionary, store it, and report whether
      it is empty. */
    method ValidateForm() returns (ok: bool)
      modifies this
      ensures errors == FormErrors(formData)
      ensures ok <==> FormValid(formData)
      ensures formData == old(formData) && isSubmitting == old(isSubmitting)
      ensures isSubmitted == old(isSubmitted) && submitStatus == old(submitStatus)
    {
      var newErrors := BuildErrors(formData);
      errors := newErrors;
      FormErrorsEmptyIffValid(formData);
      assert |newErrors| == 0 <==> newErrors == map[];
      ok := |newErrors| == 0;
    }

    /** `handleChange` for a text input or the category select. */
    method EditText(field: string, value: string)
      requires field in {"name", "email", "phone", "subject", "category", "message"}
      modifies this
      ensures formData == old(
        if field == "name" then formData.(name := value)
        else if field == "email" then formData.(email := value)
        else if field == "phone" then formData.(phone := value)
        else if field == "subject" then formData.(subject := value)
        else if field == "category" then formData.(category := value)
        else formData.(message := value))
      ensures errors == ClearedError(old(errors), field)
      ensures isSubmitting == old(isSubmitting) && isSubmitted == old(isSubmitted) && submitStatus == old(submitStatus)
    {
      if field == "name" {
        formData := formData.(name := value);
      } else if field == "email" {
        formData := formData.(email := value);
      } else if field == "phone" {
        formData := formData.(phone := value);
      } else if field == "subject" {
        formData := formData.(subject := value);
      } else if field == "category" {
        formData := formData.(category := value);
      } else {
        formData := formData.(message := value);
      }
      errors := ClearedError(errors, field);
    }

    /** `handleChange` for the newsletter checkbox, which stores `checked`. */
    method EditNewsletter(checked: bool)
      modifies this
      ensures formData == old(formData).(newsletter := checked)
      ensures errors == ClearedError(old(errors), "newsletter")
      ensures isSubmitting == old(isSubmitting) && isSubmitted == old(isSubmitted) && submitStatus == old(submitStatus)
    {
      formData := formData.(newsletter := checked);
      errors := ClearedError(errors, "newsletter");
    }

    /** `handleSubmit`: an invalid form is never sent. A successful answer
      resets the form; an unsuccessful one or a thrown error installs the
      errors it carries, if any. A sent form always ends submitting. */
    method HandleSubmit(result: SubmitResult) returns (sent: Option<FormData>)
      modifies this
      ensures sent.Some? <==> FormValid(old(formData))
      ensures sent.Some? ==> sent.value == old(formData)
      ensures sent.Some? ==> !isSubmitting
      ensures sent.None? ==> formData == old(formData) && errors == FormErrors(old(formData))
      ensures sent.None? ==> isSubmitted == old(isSubmitted) && submitStatus == old(submitStatus) && isSubmitting == old(isSubmitting)
      ensures sent.Some? && result.Answered? && result.success ==>
        formData == DefaultForm && isSubmitted && submitStatus == "success" && errors == map[]
      ensures sent.Some? && !(result.Answered? && result.success) ==>
        formData == old(formData) && isSubmitted == old(isSubmitted) && submitStatus == "error"
        && errors == ServerErrors(result, map[])
    {
      var ok := ValidateForm();
      if !ok {
        sent := None;
        return;
      }
      FormErrorsEmptyIffValid(formData);
      sent := Some(formData);
      isSubmitting := true;
      submitStatus := "";
      if result.Answered? && result.success {
        isSubmitted := true;
        submitStatus := "success";
        formData := DefaultForm;
      } else {
        errors := ServerErrors(result, errors);
        submitStatus := "error";
      }
      isSubmitting := false;
    }
  }

  /** The errors a failed submission leaves: those the server or the thrown
      error carries, else the current ones. */
  function ServerErrors(result: SubmitResult, current: map<string, string>): (r: map<string, string>)
    ensures result.Answered? && result.errors.Some? ==> r == result.errors.value
    ensures result.Threw? && result.thrownErrors.Some? ==> r == result.thrownErrors.value
    ensures (result.Answered? && result.errors.None?) || (result.Threw? && result.thrownErrors.None?) ==> r == current
  {
    match result
    case Answered(_, errs) => if errs.Some? then errs.value else current
    case Threw(errs) => if errs.Some? then errs.value else current
  }
}

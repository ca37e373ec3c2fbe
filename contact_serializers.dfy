/** `ContactSerializer`: the per-field validators of a contact submission.
    Each either rejects its value with a message or returns the value to
    store. The framework collects one message per failing field. */
module ContactSerializers {
  import opened Base
  import opened Text
  import opened ContactModels

  const EmailRequired := "Email is required"
  const NameTooShort := "Name must be at least 2 characters long"
  const SubjectTooShort := "Subject must be at least 5 characters long"
  const MessageTooShort := "Message must be at least 10 characters long"
  const PhoneInvalid := "Please enter a valid phone number"

  /** `validate_email`: an empty value is rejected; any other is stored
      lower-cased. */
  function ValidateEmail(value: string): (r: Outcome<string>)
    ensures r.Failed? <==> value == ""
    ensures r.Failed? ==> r.message == EmailRequired
    ensures r.Ok? ==> |r.value| == |value| && forall i :: 0 <= i < |value| ==> r.value[i] == LowerChar(value[i])
  {
    if value == "" then Failed(EmailRequired) else Ok(Lower(value))
  }

  /** The name, subject and message validators: a value whose stripped form
      is shorter than `n` is rejected, any other is stored stripped. */
  function AtLeastStripped(value: string, n: nat, message: string): (r: Outcome<string>)
    ensures r.Failed? <==> value == "" || |Trim(Python, value)| < n
    ensures r.Failed? ==> r.message == message
    ensures r.Ok? ==> r.value == Trim(Python, value) && |r.value| >= n
  {
    if value == "" || |Trim(Python, value)| < n then Failed(message) else Ok(Trim(Python, value))
  }

  /** A stored value starts and ends with a non-space character. */
  lemma StrippedHasNoOuterSpace(value: string, n: nat, message: string)
    requires n >= 1 && AtLeastStripped(value, n, message).Ok?
    ensures var v := AtLeastStripped(value, n, message).value;
      !IsSpace(Python, v[0]) && !IsSpace(Python, v[|v| - 1])
  {
    TrimShape(Python, value);
  }

  function ValidateName(value: string): Outcome<string>
  {
    AtLeastStripped(value, 2, NameTooShort)
  }

  function ValidateSubject(value: string): Outcome<string>
  {
    AtLeastStripped(value, 5, SubjectTooShort)
  }

  function ValidateMessage(value: string): Outcome<string>
  {
    AtLeastStripped(value, 10, MessageTooShort)
  }

  /** `phone_clean.replace('+', '')`: the phone without spaces, dashes,
      parentheses and plus signs. */
  function PhoneDigits(value: string): (r: string)
    ensures forall c :: c in r ==> c in value && c !in {' ', '-', '(', ')', '+'}
  {
    Without(Without(value, {' ', '-', '(', ')'}), {'+'})
  }

  /** `str.isdigit` restricted to the digits '0' to '9': non-empty and all
      digits. */
  predicate IsDigitString(s: string)
  {
    s != "" && AllDigits(s)
  }

  /** `validate_phone`: a missing or empty phone passes; any other passes
      when what is left after dropping the separators is digits. A phone that
      passes is stored as it was given. */
  function ValidatePhone(value: Option<string>): (r: Outcome<Option<string>>)
    ensures r.Ok? ==> r.value == value
    ensures r.Failed? <==> value.Some? && value.value != "" && !IsDigitString(PhoneDigits(value.value))
    ensures r.Failed? ==> r.message == PhoneInvalid
  {
    if value.Some? && value.value != "" && !IsDigitString(PhoneDigits(value.value)) then Failed(PhoneInvalid)
    else Ok(value)
  }

  function ErrorOf<T>(r: Outcome<T>): Option<string>
  {
    if r.Failed? then Some(r.message) else None
  }

  /** The framework's `CharField(trim_whitespace=True)`, which runs before
      each `validate_*` method: the text fields arrive stripped, and a blank
      optional phone arrives as the empty string. */
  function TrimPhone(phone: Option<string>): (r: Option<string>)
    ensures phone.None? <==> r.None?
    ensures phone.Some? ==> r.value == Trim(Python, phone.value)
  {
    if phone.Some? then Some(Trim(Python, phone.value)) else None
  }

  function Stripped(f: ContactFields): (r: ContactFields)
    ensures r.name == Trim(Python, f.name) && r.email == Trim(Python, f.email) && r.phone == TrimPhone(f.phone)
    ensures r.subject == Trim(Python, f.subject) && r.message == Trim(Python, f.message)
    ensures r.category == f.category && r.newsletter == f.newsletter
  {
    f.(name := Trim(Python, f.name), email := Trim(Python, f.email), phone := TrimPhone(f.phone),
       subject := Trim(Python, f.subject), message := Trim(Python, f.message))
  }

  /** What `is_valid` leaves: the values to store, or one message per
      failing field. */
  datatype Validated = Valid(fields: ContactFields) | Invalid(errors: map<string, string>)

  function Validate(f: ContactFields): (r: Validated)
  {
    var s := Stripped(f);
    var name, email, phone := ValidateName(s.name), ValidateEmail(s.email), ValidatePhone(s.phone);
    var subject, message := ValidateSubject(s.subject), ValidateMessage(s.message);
    if name.Ok? && email.Ok? && phone.Ok? && subject.Ok? && message.Ok? then
      Valid(s.(name := name.value, email := email.value, phone := phone.value,
               subject := subject.value, message := message.value))
    else
      Invalid(Put(Put(Put(Put(Put(map[], "name", ErrorOf(name)), "email", ErrorOf(email)),
        "phone", ErrorOf(phone)), "subject", ErrorOf(subject)), "message", ErrorOf(message)))
  }

  /** The error dictionary of a rejected submission names every failing
      field with that field's message. */
  lemma ErrorsNameFailures(name: Outcome<string>, email: Outcome<string>, phone: Outcome<Option<string>>,
                           subject: Outcome<string>, message: Outcome<string>)
    ensures var errors := Put(Put(Put(Put(Put(map[], "name", ErrorOf(name)), "email", ErrorOf(email)),
        "phone", ErrorOf(phone)), "subject", ErrorOf(subject)), "message", ErrorOf(message));
      (name.Failed? || email.Failed? || phone.Failed? || subject.Failed? || message.Failed? ==> errors != map[])
      && (email.Failed? ==> errors["email"] == email.message)
  {
    var e1 := Put(map[], "name", ErrorOf(name));
    var e2 := Put(e1, "email", ErrorOf(email));
    var e3 := Put(e2, "phone", ErrorOf(phone));
    var e4 := Put(e3, "subject", ErrorOf(subject));
    var e5 := Put(e4, "message", ErrorOf(message));
    assert e1.Keys <= e2.Keys <= e3.Keys <= e4.Keys <= e5.Keys;
    if email.Failed? {
      assert e5["email"] == e2["email"];
    }
    if name.Failed? { assert "name" in e5; }
    else if email.Failed? { assert "email" in e5; }
    else if phone.Failed? { assert "phone" in e5; }
    else if subject.Failed? { assert "subject" in e5; }
    else if message.Failed? { assert "message" in e5; }
  }

  /** A submission is rejected exactly when one of its validated fields
      fails once stripped, and then the error dictionary names that field; an
      accepted one is stored stripped, lower-cased where the validators say
      so, and with category and newsletter untouched. */
  lemma ValidateMeaning(f: ContactFields)
    ensures Validate(f).Invalid? <==>
      |Trim(Python, f.name)| < 2 || Trim(Python, f.email) == "" || ValidatePhone(TrimPhone(f.phone)).Failed?
      || |Trim(Python, f.subject)| < 5 || |Trim(Python, f.message)| < 10
    ensures Validate(f).Invalid? ==> Validate(f).errors != map[]
    ensures Validate(f).Invalid? && Trim(Python, f.email) == "" ==> Validate(f).errors["email"] == EmailRequired
    ensures Validate(f).Valid? ==>
      var v := Validate(f).fields;
      v.name == Trim(Python, f.name) && v.email == Lower(Trim(Python, f.email)) && v.phone == TrimPhone(f.phone)
      && v.subject == Trim(Python, f.subject) && v.message == Trim(Python, f.message)
      && v.category == f.category && v.newsletter == f.newsletter
  {
    var s := Stripped(f);
    TrimIdempotent(Python, f.name);
    TrimIdempotent(Python, f.subject);
    TrimIdempotent(Python, f.message);
    ErrorsNameFailures(ValidateName(s.name), ValidateEmail(s.email), ValidatePhone(s.phone),
                       ValidateSubject(s.subject), ValidateMessage(s.message));
  }

  /** Validating what was stored accepts it unchanged: the stored values are
      already stripped, lower-cased and long enough. */
  lemma {:induction false} ValidateIdempotent(f: ContactFields)
    requires Validate(f).Valid?
    ensures Validate(Validate(f).fields) == Validate(f)
  {
    var v := Validate(f).fields;
    ValidateMeaning(f);
    TrimIdempotent(Python, f.name);
    TrimIdempotent(Python, f.subject);
    TrimIdempotent(Python, f.message);
    TrimLowerTrimmed(Python, f.email);
    LowerIdempotent(Trim(Python, f.email));
    if f.phone.Some? {
      TrimIdempotent(Python, f.phone.value);
    }
    assert Stripped(v) == v;
    ValidateMeaning(v);
  }
}

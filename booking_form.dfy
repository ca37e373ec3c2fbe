/** The four-step booking wizard: 1 = dates, 2 = travelers, 3 = contact,
    4 = confirmed. Dates are whole UTC day numbers (an empty date input is
    `None`); `today` is the UTC day of the current instant, so "departure on or
    before now" is `departure <= today`. The result of the create-booking call
    is a parameter. */
module BookingForm {
  import opened Base
  import opened Text
  import opened Js

  /** The signed-in user as the form reads it; "" stands for a missing
      attribute (JavaScript treats both as falsy). */
  datatype Account = Account(firstName: string, lastName: string, name: string, email: string)

  /** The destination the form was opened for. */
  datatype DestinationRef = DestinationRef(id: nat, pricePerPerson: Numeric, price: Numeric)

  datatype Traveler = Traveler(
    firstName: string, lastName: string, email: string, phone: string,
    age: int, gender: string, dateOfBirth: string, nationality: string,
    passportNumber: string, dietaryRestrictions: string, specialRequirements: string)

  /** The record given to every traveler slot the roster grows by. */
  const DefaultTraveler := Traveler("", "", "", "", 25, "M", "", "", "", "", "")

  /** The traveler fields the step-2 inputs edit (age has no input). */
  datatype TravelerField =
    | FirstName | LastName | Email | Phone | DateOfBirth | Nationality
    | Gender | PassportNumber | DietaryRestrictions | SpecialRequirements

  function Get(t: Traveler, f: TravelerField): string
  {
    match f
    case FirstName => t.firstName
    case LastName => t.lastName
    case Email => t.email
    case Phone => t.phone
    case DateOfBirth => t.dateOfBirth
    case Nationality => t.nationality
    case Gender => t.gender
    case PassportNumber => t.passportNumber
    case DietaryRestrictions => t.dietaryRestrictions
    case SpecialRequirements => t.specialRequirements
  }

  /** `{ ...traveler, [field]: value }`. */
  function WithField(t: Traveler, f: TravelerField, v: string): (r: Traveler)
    ensures Get(r, f) == v
    ensures forall g :: g != f ==> Get(r, g) == Get(t, g)
    ensures r.age == t.age
  {
    match f
    case FirstName => t.(firstName := v)
    case LastName => t.(lastName := v)
    case Email => t.(email := v)
    case Phone => t.(phone := v)
    case DateOfBirth => t.(dateOfBirth := v)
    case Nationality => t.(nationality := v)
    case Gender => t.(gender := v)
    case PassportNumber => t.(passportNumber := v)
    case DietaryRestrictions => t.(dietaryRestrictions := v)
    case SpecialRequirements => t.(specialRequirements := v)
  }

  /** `travelers.map((t, i) => i === index ? {...t, [field]: value} : t)`. */
  function UpdatedTraveler(ts: seq<Traveler>, index: int, f: TravelerField, v: string): (r: seq<Traveler>)
    ensures |r| == |ts|
    ensures forall i :: 0 <= i < |ts| && i != index ==> r[i] == ts[i]
    ensures 0 <= index < |ts| ==> r[index] == WithField(ts[index], f, v)
  {
    if 0 <= index < |ts| then ts[index := WithField(ts[index], f, v)] else ts
  }

  /** First name seeded from the user: first_name, else the first word of name. */
  function SeedFirstName(user: Option<Account>): string
  {
    if user.None? then ""
    else if user.value.firstName != "" then user.value.firstName
    else Before(user.value.name, ' ')
  }

  /** Last name seeded from the user: last_name, else the words of name after the first. */
  function SeedLastName(user: Option<Account>): string
  {
    if user.None? then ""
    else if user.value.lastName != "" then user.value.lastName
    else After(user.value.name, ' ')
  }

  function SeedEmail(user: Option<Account>): string
  {
    if user.None? then "" else user.value.email
  }

  /** The single traveler the draft starts with. */
  function SeedTraveler(user: Option<Account>): (r: Traveler)
    ensures r == DefaultTraveler.(firstName := SeedFirstName(user), lastName := SeedLastName(user), email := SeedEmail(user))
  {
    Traveler(SeedFirstName(user), SeedLastName(user), SeedEmail(user), "", 25, "M", "", "", "", "", "")
  }

  /** A user without first_name and last_name but with a full name gets it
      split at the first space, and nothing of the name is lost. */
  lemma {:induction false} SeedSplitsName(a: Account)
    requires a.firstName == "" && a.lastName == "" && ' ' in a.name
    ensures SeedFirstName(Some(a)) + " " + SeedLastName(Some(a)) == a.name
    ensures ' ' !in SeedFirstName(Some(a))
  {
    BeforeAfter(a.name, ' ');
  }

  /** The roster after `updateTravelersCount(count)`: the first `count`
      existing entries, padded with default records. */
  function Resized(ts: seq<Traveler>, count: int): seq<Traveler>
  {
    if count <= 0 then []
    else if count <= |ts| then ts[..count]
    else ts + seq(count - |ts|, _ => DefaultTraveler)
  }

  function Max0(n: int): nat
  {
    if n < 0 then 0 else n
  }

  /** Exactly `count` travelers; existing entries keep their place and data;
      new slots are the default record. */
  lemma ResizedShape(ts: seq<Traveler>, count: int)
    ensures |Resized(ts, count)| == Max0(count)
    ensures forall i :: 0 <= i < Max0(count) && i < |ts| ==> Resized(ts, count)[i] == ts[i]
    ensures forall i :: |ts| <= i < Max0(count) ==> Resized(ts, count)[i] == DefaultTraveler
  {
  }

  /** Growing the roster and then shrinking it back loses nothing. */
  lemma {:induction false} ResizedGrowShrink(ts: seq<Traveler>, count: int)
    requires count >= |ts|
    ensures Resized(Resized(ts, count), |ts|) == ts
  {
    var r := Resized(ts, count);
    assert |r| == count;
    if |ts| > 0 {
      assert r[..|ts|] == ts;
    }
  }

  /** `(price_per_person || price || 1299)`, in cents. */
  function UnitPrice(d: DestinationRef): (r: int)
    ensures Truthy(d.pricePerPerson) ==> r == ValueOrZero(d.pricePerPerson)
    ensures !Truthy(d.pricePerPerson) && Truthy(d.price) ==> r == ValueOrZero(d.price)
    ensures !Truthy(d.pricePerPerson) && !Truthy(d.price) ==> r == 129900
  {
    ValueOrZero(Or(d.pricePerPerson, Or(d.price, Number(129900))))
  }

  /** `totalPrice`: the unit price once per traveler. */
  function TotalPrice(d: DestinationRef, travelers: int): (r: int)
    ensures r == UnitPrice(d) * travelers
    ensures Truthy(d.pricePerPerson) ==> r == ValueOrZero(d.pricePerPerson) * travelers
    ensures !Truthy(d.pricePerPerson) && !Truthy(d.price) ==> r == 129900 * travelers
    ensures travelers >= 0 && UnitPrice(d) >= 0 ==> r >= 0
  {
    UnitPrice(d) * travelers
  }

  /** No travelers cost nothing, and the total grows with each added
      traveler by exactly one unit price. */
  lemma TotalPriceStep(d: DestinationRef, n: int)
    ensures TotalPrice(d, 0) == 0
    ensures TotalPrice(d, n + 1) == TotalPrice(d, n) + UnitPrice(d)
  {
  }

  const DatesMissing := "Please select both departure and return dates"
  const DatesOutOfOrder := "Return date must be after departure date"
  const DepartureNotFuture := "Departure date must be in the future"
  const CountOutOfRange := "Number of travelers must be between 1 and 20"
  const ContactMissing := "Emergency contact information is required"
  const ContactEmailMissing := "Contact email is required"

  /** Step 1. */
  function ValidateDates(departure: Option<int>, ret: Option<int>, today: int): (r: Option<string>)
    ensures r.None? <==> departure.Some? && ret.Some? && departure.value < ret.value && departure.value > today
    ensures (departure.None? || ret.None?) ==> r == Some(DatesMissing)
    ensures departure.Some? && ret.Some? && departure.value >= ret.value ==> r == Some(DatesOutOfOrder)
    ensures departure.Some? && ret.Some? && departure.value < ret.value && departure.value <= today ==> r == Some(DepartureNotFuture)
  {
    if departure.None? || ret.None? then Some(DatesMissing)
    else if departure.value >= ret.value then Some(DatesOutOfOrder)
    else if departure.value <= today then Some(DepartureNotFuture)
    else None
  }

  function TravelerMessage(what: string, i: nat): string
  {
    "Please enter " + what + " for traveler " + NatToString(i + 1)
  }

  /** The first required field, in checking order, that traveler `t` lacks. */
  function MissingField(t: Traveler): Option<string>
  {
    if Trim(Browser, t.firstName) == [] then Some("first name")
    else if Trim(Browser, t.lastName) == [] then Some("last name")
    else if Trim(Browser, t.email) == [] then Some("email")
    else if t.dateOfBirth == "" then Some("date of birth")
    else if Trim(Browser, t.nationality) == [] then Some("nationality")
    else None
  }

  /** The step-2 check of one traveler (index `i`, 0-based). */
  function TravelerError(t: Traveler, i: nat): Option<string>
  {
    match MissingField(t)
    case None => None
    case Some(what) => Some(TravelerMessage(what, i))
  }

  /** The fields step 2 requires. White space alone does not count, except for
      the date of birth, which is not trimmed. */
  predicate Complete(t: Traveler)
  {
    !IsBlank(Browser, t.firstName) && !IsBlank(Browser, t.lastName) && !IsBlank(Browser, t.email)
    && t.dateOfBirth != "" && !IsBlank(Browser, t.nationality)
  }

  lemma MissingFieldNoneIff(t: Traveler)
    ensures MissingField(t).None? <==> Complete(t)
  {
    TrimEmptyIffBlank(Browser, t.firstName);
    TrimEmptyIffBlank(Browser, t.lastName);
    TrimEmptyIffBlank(Browser, t.email);
    TrimEmptyIffBlank(Browser, t.nationality);
  }

  /** The loop over travelers from index `i`: the index of the first
      incomplete one. */
  function FirstIncomplete(ts: seq<Traveler>, i: nat): (r: Option<nat>)
    requires i <= |ts|
    ensures r.None? <==> forall j :: i <= j < |ts| ==> Complete(ts[j])
    ensures r.Some? ==> i <= r.value < |ts| && !Complete(ts[r.value])
                        && forall k :: i <= k < r.value ==> Complete(ts[k])
    decreases |ts| - i
  {
    if i == |ts| then None
    else if MissingField(ts[i]).Some? then
      MissingFieldNoneIff(ts[i]);
      Some(i)
    else
      MissingFieldNoneIff(ts[i]);
      FirstIncomplete(ts, i + 1)
  }

  /** Step 2: the count, then the first incomplete traveler's first missing field. */
  function ValidateTravelers(count: int, ts: seq<Traveler>): (r: Option<string>)
    ensures r.None? <==> 1 <= count <= 20 && forall j :: 0 <= j < |ts| ==> Complete(ts[j])
    ensures !(1 <= count <= 20) ==> r == Some(CountOutOfRange)
  {
    if count < 1 || count > 20 then Some(CountOutOfRange)
    else match FirstIncomplete(ts, 0)
      case None => None
      case Some(j) =>
        MissingFieldNoneIff(ts[j]);
        TravelerError(ts[j], j)
  }

  /** The message names the first incomplete traveler (counting from 1) and
      its first missing field. */
  lemma ValidateTravelersNames(count: int, ts: seq<Traveler>, j: nat)
    requires 1 <= count <= 20 && j < |ts| && !Complete(ts[j])
    requires forall k :: 0 <= k < j ==> Complete(ts[k])
    ensures MissingField(ts[j]).Some?
    ensures ValidateTravelers(count, ts) == Some(TravelerMessage(MissingField(ts[j]).value, j))
  {
    MissingFieldNoneIff(ts[j]);
    var f := FirstIncomplete(ts, 0);
    assert f == Some(j);
  }

  /** Step 3. */
  function ValidateContact(name: string, phone: string, email: string): (r: Option<string>)
    ensures r.None? <==> name != "" && phone != "" && email != ""
    ensures (name == "" || phone == "") ==> r == Some(ContactMissing)
  {
    if name == "" || phone == "" then Some(ContactMissing)
    else if email == "" then Some(ContactEmailMissing)
    else None
  }

  /** A traveler as the create-booking request carries it. */
  datatype TravelerPayload = TravelerPayload(
    firstName: string, lastName: string, dateOfBirth: string,
    passportNumber: string, nationality: string)

  datatype BookingPayload = BookingPayload(
    destination: nat, startDate: Option<int>, endDate: Option<int>, numberOfTravelers: int,
    primaryContactName: string, primaryContactPhone: string, primaryContactEmail: string,
    specialRequirements: string, dietaryRestrictions: string,
    travelers: seq<TravelerPayload>)

  /** `passport_number || ''` is the passport number itself: it is always a string. */
  function NarrowTraveler(t: Traveler): TravelerPayload
  {
    TravelerPayload(t.firstName, t.lastName, t.dateOfBirth, t.passportNumber, t.nationality)
  }

  function NarrowTravelers(ts: seq<Traveler>): (r: seq<TravelerPayload>)
    ensures |r| == |ts|
    ensures forall i :: 0 <= i < |ts| ==> r[i] == NarrowTraveler(ts[i])
  {
    if ts == [] then [] else [NarrowTraveler(ts[0])] + NarrowTravelers(ts[1..])
  }

  /** The fields the create-booking response echoes back (`booking.booking_id`
      and `booking.status`; "" when absent). */
  datatype BookingResponse = BookingResponse(bookingId: string, status: string)

  const SubmitFailed := "Failed to create booking. Please try again."

  /** What step 4 shows as the booking id: the server's, else "TB" and the
      current time in milliseconds. */
  function ConfirmationId(response: Option<BookingResponse>, nowMillis: nat): (r: string)
    ensures response.Some? && response.value.bookingId != "" ==> r == response.value.bookingId
    ensures r != ""
  {
    if response.Some? && response.value.bookingId != "" then response.value.bookingId
    else "TB" + NatToString(nowMillis)
  }

  function ConfirmationStatus(response: Option<BookingResponse>): (r: string)
    ensures r != ""
  {
    if response.Some? && response.value.status != "" then response.value.status else "Confirmed"
  }

  /** A change from one of the draft's plain inputs (`handleInputChange`). */
  datatype DraftChange =
    | DepartureDate(day: Option<int>)
    | ReturnDate(day: Option<int>)
    | ContactName(text: string)
    | ContactEmail(text: string)
    | ContactPhone(text: string)
    | DietaryRequirements(text: string)
    | SpecialRequests(text: string)

  /** The step whose form renders the input a change comes from. */
  function StepOf(c: DraftChange): int
  {
    if c.DepartureDate? || c.ReturnDate? then 1 else 3
  }

  class Wizard {
    const destination: DestinationRef
    const user: Option<Account>

    var currentStep: int
    var isLoading: bool
    var error: string
    var bookingResponse: Option<BookingResponse>

    var departureDate: Option<int>
    var returnDate: Option<int>
    var numberOfTravelers: int
    var specialRequests: string
    var contactName: string
    var contactPhone: string
    var contactEmail: string
    var dietaryRequirements: string
    var travelers: seq<Traveler>

    /** The step is one of the four, the roster always has one record per
        traveler, and every step already passed still validates (dates are
        only re-checked for order: time moves on). */
    predicate Valid()
      reads this
    {
      1 <= currentStep <= 4
      && |travelers| == Max0(numberOfTravelers)
      && (currentStep >= 2 ==> DatesOrdered())
      && (currentStep >= 3 ==> ValidateTravelers(numberOfTravelers, travelers).None?)
      && (currentStep == 4 ==> ValidateContact(contactName, contactPhone, contactEmail).None?)
    }

    predicate DatesOrdered()
      reads this
    {
      departureDate.Some? && returnDate.Some? && departureDate.value < returnDate.value
    }

    /** `validateStep(step)` without its side effect on the error. */
    function StepError(step: int, today: int): Option<string>
      reads this
    {
      if step == 1 then ValidateDates(departureDate, returnDate, today)
      else if step == 2 then ValidateTravelers(numberOfTravelers, travelers)
      else if step == 3 then ValidateContact(contactName, contactPhone, contactEmail)
      else None
    }

    function Payload(): (r: BookingPayload)
      reads this
      ensures r.destination == destination.id
      ensures r.startDate == departureDate && r.endDate == returnDate
      ensures r.numberOfTravelers == numberOfTravelers
      ensures r.primaryContactName == contactName && r.primaryContactPhone == contactPhone
      ensures r.primaryContactEmail == contactEmail
      ensures r.specialRequirements == specialRequests && r.dietaryRestrictions == dietaryRequirements
      ensures |r.travelers| == |travelers|
      ensures forall i :: 0 <= i < |travelers| ==> r.travelers[i] == NarrowTraveler(travelers[i])
    {
      BookingPayload(destination.id, departureDate, returnDate, numberOfTravelers,
                     contactName, contactPhone, contactEmail, specialRequests, dietaryRequirements,
                     NarrowTravelers(travelers))
    }

    /** The initial draft. */
    constructor (destination: DestinationRef, user: Option<Account>)
      ensures this.destination == destination && this.user == user
      ensures currentStep == 1 && !isLoading && error == "" && bookingResponse.None?
      ensures departureDate.None? && returnDate.None? && numberOfTravelers == 1
      ensures specialRequests == "" && contactName == "" && contactPhone == ""
      ensures contactEmail == SeedEmail(user) && dietaryRequirements == ""
      ensures travelers == [SeedTraveler(user)]
      ensures Valid()
    {
      this.destination := destination;
      this.user := user;
      currentStep := 1;
      isLoading := false;
      error := "";
      bookingResponse := None;
      departureDate := None;
      returnDate := None;
      numberOfTravelers := 1;
      specialRequests := "";
      contactName := "";
      contactPhone := "";
      contactEmail := SeedEmail(user);
      dietaryRequirements := "";
      travelers := [SeedTraveler(user)];
    }

    /** `handleInputChange`: sets one draft field and clears the error. The
        date inputs exist only on step 1 and the contact inputs only on step 3. */
    method HandleInputChange(c: DraftChange)
      requires Valid() && currentStep == StepOf(c)
      modifies this
      ensures Valid()
      ensures error == ""
      ensures departureDate == (if c.DepartureDate? then c.day else old(departureDate))
      ensures returnDate == (if c.ReturnDate? then c.day else old(returnDate))
      ensures contactName == (if c.ContactName? then c.text else old(contactName))
      ensures contactEmail == (if c.ContactEmail? then c.text else old(contactEmail))
      ensures contactPhone == (if c.ContactPhone? then c.text else old(contactPhone))
      ensures dietaryRequirements == (if c.DietaryRequirements? then c.text else old(dietaryRequirements))
      ensures specialRequests == (if c.SpecialRequests? then c.text else old(specialRequests))
      ensures currentStep == old(currentStep) && isLoading == old(isLoading)
      ensures bookingResponse == old(bookingResponse)
      ensures numberOfTravelers == old(numberOfTravelers) && travelers == old(travelers)
    {
      match c {
        case DepartureDate(d) => departureDate := d;
        case ReturnDate(d) => returnDate := d;
        case ContactName(t) => contactName := t;
        case ContactEmail(t) => contactEmail := t;
        case ContactPhone(t) => contactPhone := t;
        case DietaryRequirements(t) => dietaryRequirements := t;
        case SpecialRequests(t) => specialRequests := t;
      }
      error := "";
    }

    /** `handleTravelerChange`: one field of one traveler; the error is kept. */
    method HandleTravelerChange(index: int, f: TravelerField, v: string)
      requires Valid() && currentStep == 2
      modifies this
      ensures Valid()
      ensures travelers == UpdatedTraveler(old(travelers), index, f, v)
      ensures numberOfTravelers == old(numberOfTravelers) && error == old(error)
      ensures currentStep == old(currentStep) && isLoading == old(isLoading)
      ensures departureDate == old(departureDate) && returnDate == old(returnDate)
      ensures contactName == old(contactName) && contactPhone == old(contactPhone)
      ensures contactEmail == old(contactEmail) && specialRequests == old(specialRequests)
      ensures dietaryRequirements == old(dietaryRequirements) && bookingResponse == old(bookingResponse)
    {
      travelers := UpdatedTraveler(travelers, index, f, v);
    }

    /** `updateTravelersCount`: rebuilds the roster with a push loop. */
    method UpdateTravelersCount(count: int)
      requires Valid() && currentStep == 2
      modifies this
      ensures Valid()
      ensures numberOfTravelers == count
      ensures travelers == Resized(old(travelers), count)
      ensures error == old(error) && currentStep == old(currentStep) && isLoading == old(isLoading)
      ensures departureDate == old(departureDate) && returnDate == old(returnDate)
      ensures contactName == old(contactName) && contactPhone == old(contactPhone)
      ensures contactEmail == old(contactEmail) && specialRequests == old(specialRequests)
      ensures dietaryRequirements == old(dietaryRequirements) && bookingResponse == old(bookingResponse)
    {
      var current := travelers;
      var roster: seq<Traveler> := [];
      var i := 0;
      while i < count
        invariant 0 <= i <= Max0(count)
        invariant |roster| == i
        invariant forall k :: 0 <= k < i && k < |current| ==> roster[k] == current[k]
        invariant forall k :: |current| <= k < i ==> roster[k] == DefaultTraveler
      {
        if i < |current| {
          roster := roster + [current[i]];
        } else {
          roster := roster + [DefaultTraveler];
        }
        i := i + 1;
      }
      ResizedShape(current, count);
      assert roster == Resized(current, count);
      numberOfTravelers := count;
      travelers := roster;
    }

    /** `nextStep`: advance (at most to 4) when the current step validates,
        otherwise report its error. A success does not clear an earlier error. */
    method NextStep(today: int)
      requires Valid()
      modifies this
      ensures Valid()
      ensures old(StepError(currentStep, today)).None? ==>
                currentStep == (if old(currentStep) + 1 < 4 then old(currentStep) + 1 else 4) && error == old(error)
      ensures old(StepError(currentStep, today)).Some? ==>
                currentStep == old(currentStep) && error == old(StepError(currentStep, today)).value
      ensures isLoading == old(isLoading) && bookingResponse == old(bookingResponse)
      ensures departureDate == old(departureDate) && returnDate == old(returnDate)
      ensures numberOfTravelers == old(numberOfTravelers) && travelers == old(travelers)
      ensures contactName == old(contactName) && contactPhone == old(contactPhone)
      ensures contactEmail == old(contactEmail) && specialRequests == old(specialRequests)
      ensures dietaryRequirements == old(dietaryRequirements)
    {
      var e := StepError(currentStep, today);
      if e.None? {
        currentStep := if currentStep + 1 < 4 then currentStep + 1 else 4;
      } else {
        error := e.value;
      }
    }

    /** `prevStep`: back one step (not below 1), clearing the error. */
    method PrevStep()
      requires Valid()
      modifies this
      ensures Valid()
      ensures currentStep == (if old(currentStep) - 1 > 1 then old(currentStep) - 1 else 1)
      ensures error == ""
      ensures isLoading == old(isLoading) && bookingResponse == old(bookingResponse)
      ensures departureDate == old(departureDate) && returnDate == old(returnDate)
      ensures numberOfTravelers == old(numberOfTravelers) && travelers == old(travelers)
      ensures contactName == old(contactName) && contactPhone == old(contactPhone)
      ensures contactEmail == old(contactEmail) && specialRequests == old(specialRequests)
      ensures dietaryRequirements == old(dietaryRequirements)
    {
      currentStep := if currentStep - 1 > 1 then currentStep - 1 else 1;
      error := "";
    }

    /** `handleSubmit` on step 3: nothing is sent unless the contact step
        validates; otherwise the payload is sent and `outcome` is the reply.
        Success records the response and shows step 4; a failure keeps the
        step and shows the rejection's message (or a fixed default). */
    method HandleSubmit(outcome: Outcome<BookingResponse>) returns (sent: Option<BookingPayload>)
      requires Valid() && currentStep == 3
      modifies this
      ensures Valid()
      ensures old(StepError(3, 0)).Some? ==>
                sent.None? && error == old(StepError(3, 0)).value && isLoading == old(isLoading)
                && currentStep == old(currentStep) && bookingResponse == old(bookingResponse)
      ensures old(StepError(3, 0)).None? ==> sent == Some(old(Payload())) && !isLoading
      ensures old(StepError(3, 0)).None? && outcome.Ok? ==>
                currentStep == 4 && bookingResponse == Some(outcome.value) && error == ""
      ensures old(StepError(3, 0)).None? && outcome.Failed? ==>
                currentStep == old(currentStep) && bookingResponse == old(bookingResponse)
                && error == (if outcome.message != "" then outcome.message else SubmitFailed)
      ensures departureDate == old(departureDate) && returnDate == old(returnDate)
      ensures numberOfTravelers == old(numberOfTravelers) && travelers == old(travelers)
      ensures contactName == old(contactName) && contactPhone == old(contactPhone)
      ensures contactEmail == old(contactEmail) && specialRequests == old(specialRequests)
      ensures dietaryRequirements == old(dietaryRequirements)
    {
      var e := StepError(3, 0);
      if e.Some? {
        error := e.value;
        return None;
      }
      isLoading := true;
      error := "";
      sent := Some(Payload());
      match outcome {
        case Ok(response) =>
          bookingResponse := Some(response);
          currentStep := 4;
        case Failed(message) =>
          error := if message != "" then message else SubmitFailed;
      }
      isLoading := false;
    }
  }

  /** Whatever the user does, a payload the wizard sends carries one traveler
      per counted traveler, a departure strictly before the return, and only
      complete travelers. */
  lemma SentPayloadShape(w: Wizard)
    requires w.Valid() && w.currentStep == 3
    ensures var p := w.Payload();
      |p.travelers| == p.numberOfTravelers
      && 1 <= p.numberOfTravelers <= 20
      && p.startDate.Some? && p.endDate.Some? && p.startDate.value < p.endDate.value
      && p.primaryContactEmail == w.contactEmail
  {
  }
}

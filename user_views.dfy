/** The registration and sign-in endpoints: the order in which registration
    checks run against the user table, and the outcomes of a sign-in. */
module UserViews {
  import opened Base
  import opened Text
  import opened Lists
  import opened UserModels

  const OK := 200
  const Created := 201
  const BadRequest := 400
  const Unauthorized := 401
  const ServerError := 500

  /** The user object both endpoints return next to the tokens. */
  datatype PublicUser = PublicUser(id: nat, username: string, email: string, firstName: string, lastName: string)

  /** A response body: the tokens (not modelled) with the user and a
      message, or an `error` message. */
  datatype Body = Tokens(user: PublicUser, message: string) | Error(error: string)

  datatype Response = Response(status: int, body: Body)

  function Public(u: UserRow): PublicUser
  {
    PublicUser(u.id, u.username, u.email, u.firstName, u.lastName)
  }

  /** The request body: the text fields that were sent. */
  type Data = map<string, string>

  /** `request.data.get(field)` is truthy. */
  predicate Given(data: Data, field: string)
  {
    field in data && data[field] != ""
  }

  function Get(data: Data, field: string): string
  {
    if field in data then data[field] else ""
  }

  const RequiredFields := ["email", "username", "first_name", "last_name", "password", "password_confirm"]
  const MinPasswordLength := 6
  const PasswordMismatch := "Passwords do not match"
  const PasswordTooShort := "Password must be at least 6 characters long"
  const Registered := "User registered successfully"
  const MissingCredentials := "Email and password are required"
  const InvalidCredentials := "Invalid credentials"
  const AccountDisabled := "Account is disabled"
  const SignedIn := "Login successful"

  function Absent(data: Data): string -> bool
  {
    (f: string) => !Given(data, f)
  }

  /** The required fields that were not sent, in the declared order. */
  function Missing(data: Data): seq<string>
  {
    Filter(RequiredFields, Absent(data))
  }

  lemma MissingMeaning(data: Data)
    ensures forall f :: f in Missing(data) <==> f in RequiredFields && !Given(data, f)
    ensures Missing(data) == [] <==> forall f :: f in RequiredFields ==> Given(data, f)
  {
    forall f ensures f in Missing(data) <==> f in RequiredFields && !Given(data, f) {
      FilterMembers(RequiredFields, Absent(data), f);
    }
    if Missing(data) != [] {
      assert Missing(data)[0] in Missing(data);
    }
  }

  /** The message of the first registration check that fails, in the order
      the endpoint runs them: missing fields, confirmation mismatch, short
      password, address taken, user name taken. */
  function RegisterRejection(rows: seq<UserRow>, data: Data): Option<string>
  {
    if Missing(data) != [] then Some("Missing required fields: " + Join(Missing(data), ", "))
    else if Get(data, "password") != Get(data, "password_confirm") then Some(PasswordMismatch)
    else if |Get(data, "password")| < MinPasswordLength then Some(PasswordTooShort)
    else if HasEmail(rows, Get(data, "email")) then Some("User with email " + Get(data, "email") + " already exists")
    else if HasUsername(rows, Get(data, "username")) then Some("User with username " + Get(data, "username") + " already exists")
    else None
  }

  /** A registration passes every check exactly when all six fields were
      sent, the passwords agree and have six characters, and neither the
      address nor the user name is taken. */
  lemma RegisterRejectionMeaning(rows: seq<UserRow>, data: Data)
    ensures RegisterRejection(rows, data).None? <==>
      (forall f :: f in RequiredFields ==> Given(data, f))
      && Get(data, "password") == Get(data, "password_confirm")
      && |Get(data, "password")| >= MinPasswordLength
      && !HasEmail(rows, Get(data, "email")) && !HasUsername(rows, Get(data, "username"))
    ensures Missing(data) == [] && Get(data, "password") != Get(data, "password_confirm") ==>
      RegisterRejection(rows, data) == Some(PasswordMismatch)
  {
    RejectionOrder(rows, data);
    MissingMeaning(data);
  }

  /** The checks after the missing-fields one, as they stand in the view. */
  lemma RejectionOrder(rows: seq<UserRow>, data: Data)
    ensures RegisterRejection(rows, data).None? <==>
      Missing(data) == []
      && Get(data, "password") == Get(data, "password_confirm")
      && |Get(data, "password")| >= MinPasswordLength
      && !HasEmail(rows, Get(data, "email")) && !HasUsername(rows, Get(data, "username"))
    ensures Missing(data) == [] && Get(data, "password") != Get(data, "password_confirm") ==>
      RegisterRejection(rows, data) == Some(PasswordMismatch)
  {
  }

  /** A field that was left out is reported even when everything else is
      wrong too: the missing-fields check runs first. */
  lemma MissingFieldsFirst(rows: seq<UserRow>, data: Data, f: string)
    requires f in RequiredFields && !Given(data, f)
    ensures RegisterRejection(rows, data).Some?
    ensures |"Missing required fields: "| <= |RegisterRejection(rows, data).value|
    ensures RegisterRejection(rows, data).value[..|"Missing required fields: "|] == "Missing required fields: "
  {
    MissingMeaning(data);
    assert f in Missing(data);
  }

  /** The row `create_user` inserts. */
  function NewUser(data: Data, id: nat): UserRow
  {
    UserRow(id, Get(data, "username"), Get(data, "email"), Get(data, "first_name"), Get(data, "last_name"),
      Get(data, "password"), true)
  }

  /** The sign-in outcome for a request body, given whether the
      authentication backend accepted the found user (`authenticated`). The
      password is then checked again by hand. */
  function LoginResponse(rows: seq<UserRow>, data: Data, authenticated: bool): Response
  {
    if !Given(data, "email") || !Given(data, "password") then Response(BadRequest, Error(MissingCredentials))
    else
      var found := FindByEmail(rows, data["email"]);
      if found.None? then Response(Unauthorized, Error(InvalidCredentials))
      else
        var u := rows[found.value];
        if !authenticated && data["password"] != u.password then Response(Unauthorized, Error(InvalidCredentials))
        else if u.isActive then Response(OK, Tokens(Public(u), SignedIn))
        else Response(Unauthorized, Error(AccountDisabled))
  }

  /** The three outcomes of a complete request, for any backend that only
      accepts the right password: signed in exactly with the right password
      on an active account; "disabled" with the right password on an
      inactive one; "invalid" for an unknown address or a wrong password. So
      the backend's own answer never changes the response. */
  lemma LoginOutcomes(rows: seq<UserRow>, nextId: nat, data: Data, authenticated: bool, i: nat)
    requires UniqueRows(rows, nextId)
    requires Given(data, "email") && Given(data, "password")
    requires i < |rows| && rows[i].email == data["email"]
    requires authenticated ==> data["password"] == rows[i].password
    ensures LoginResponse(rows, data, authenticated).status == OK <==>
      data["password"] == rows[i].password && rows[i].isActive
    ensures LoginResponse(rows, data, authenticated).status == OK ==>
      LoginResponse(rows, data, authenticated).body == Tokens(Public(rows[i]), SignedIn)
    ensures LoginResponse(rows, data, authenticated) == Response(Unauthorized, Error(AccountDisabled)) <==>
      data["password"] == rows[i].password && !rows[i].isActive
    ensures LoginResponse(rows, data, authenticated) == LoginResponse(rows, data, false)
  {
    FindByEmailUnique(rows, nextId, data["email"], i);
  }

  /** Every answer is 200, 400 or 401; 400 exactly when the address or the
      password is missing; 200 only for a registered address. */
  lemma LoginStatuses(rows: seq<UserRow>, data: Data, authenticated: bool)
    ensures LoginResponse(rows, data, authenticated).status in {OK, BadRequest, Unauthorized}
    ensures LoginResponse(rows, data, authenticated).status == OK ==>
      Given(data, "email") && HasEmail(rows, data["email"])
    ensures LoginResponse(rows, data, authenticated).status == BadRequest <==>
      !Given(data, "email") || !Given(data, "password")
    ensures LoginResponse(rows, data, authenticated).status == BadRequest ==>
      LoginResponse(rows, data, authenticated).body == Error(MissingCredentials)
  {
  }

  /** An address nobody registered is refused as invalid credentials. */
  lemma LoginUnknownAddress(rows: seq<UserRow>, data: Data, authenticated: bool)
    requires Given(data, "email") && Given(data, "password") && !HasEmail(rows, data["email"])
    ensures LoginResponse(rows, data, authenticated) == Response(Unauthorized, Error(InvalidCredentials))
  {
  }

  class UserTable {
    var rows: seq<UserRow>
    var nextId: nat

    predicate Valid()
      reads this
    {
      UniqueRows(rows, nextId)
    }

    constructor ()
      ensures rows == [] && nextId == 1 && Valid()
    {
      rows := [];
      nextId := 1;
    }

    /** `RegisterView.post`. The checks run in order and the first failure
      is answered 400; a failure inside `create_user` (`createFails`, with
      its text) is answered 500. Only a request passing every check adds a
      row, and the table keeps addresses and user names unique. */
    method Register(data: Data, createFails: Option<string>) returns (response: Response)
      requires Valid()
      modifies this
      ensures Valid()
      ensures RegisterRejection(old(rows), data).Some? ==>
        response == Response(BadRequest, Error(RegisterRejection(old(rows), data).value))
        && rows == old(rows) && nextId == old(nextId)
      ensures RegisterRejection(old(rows), data).None? && createFails.Some? ==>
        response == Response(ServerError, Error("Registration failed: " + createFails.value))
        && rows == old(rows) && nextId == old(nextId)
      ensures RegisterRejection(old(rows), data).None? && createFails.None? ==>
        rows == old(rows) + [NewUser(data, old(nextId))] && nextId == old(nextId) + 1
        && response == Response(Created, Tokens(Public(NewUser(data, old(nextId))), Registered))
    {
      var rejection := Check(rows, data);
      if rejection.Some? {
        return Response(BadRequest, Error(rejection.value));
      }
      if createFails.Some? {
        return Response(ServerError, Error("Registration failed: " + createFails.value));
      }
      var user := NewUser(data, nextId);
      Insert(user);
      response := Response(Created, Tokens(Public(user), Registered));
    }

    /** `create_user` for a row whose address and user name are free. */
    method Insert(user: UserRow)
      requires Valid() && user.id == nextId
      requires !HasEmail(rows, user.email) && !HasUsername(rows, user.username)
      modifies this
      ensures Valid()
      ensures rows == old(rows) + [user] && nextId == old(nextId) + 1
    {
      AppendUnique(rows, nextId, user);
      rows := rows + [user];
      nextId := nextId + 1;
    }

    /** The checks of `RegisterView.post`, one after the other; the first
      that fails gives the message. */
    static method Check(rows: seq<UserRow>, data: Data) returns (rejection: Option<string>)
      ensures rejection == RegisterRejection(rows, data)
      ensures rejection.None? ==> !HasEmail(rows, Get(data, "email")) && !HasUsername(rows, Get(data, "username"))
    {
      var missing := Missing(data);
      if missing != [] {
        return Some("Missing required fields: " + Join(missing, ", "));
      }
      if Get(data, "password") != Get(data, "password_confirm") {
        return Some(PasswordMismatch);
      }
      var password := Get(data, "password");
      if |password| < MinPasswordLength {
        return Some(PasswordTooShort);
      }
      var email, username := Get(data, "email"), Get(data, "username");
      if HasEmail(rows, email) {
        return Some("User with email " + email + " already exists");
      }
      if HasUsername(rows, username) {
        return Some("User with username " + username + " already exists");
      }
      rejection := None;
    }
  }
}

/** The browser-side session: who is signed in, the three entries it keeps in
    local storage, the error shown by the forms, and the profile-update
    payload cleaning. Every request is replaced by its result, given as a
    parameter. */
module AuthContext {
  import opened Base
  import opened Js

  /** A user as the server sends it: a JSON object with scalar fields. */
  type User = map<string, Value>

  const AccessKey := "access_token"
  const RefreshKey := "refresh_token"
  const UserKey := "user"
  const SessionKeys := {AccessKey, RefreshKey, UserKey}

  /** A local-storage entry: plain text (a token), or the JSON text of a user
      object. JSON serialisation itself is not modelled; what matters is that
      the text of an object is never empty and parses back to that object. */
  datatype Stored = Text(text: string) | UserJson(user: User)

  type Storage = map<string, Stored>

  /** `localStorage.getItem(key)` is truthy. */
  predicate Present(storage: Storage, key: string)
  {
    key in storage && (storage[key].Text? ==> storage[key].text != "")
  }

  /** The result of `JSON.parse` on a stored text that was not written by
      this session: a value (`null` included) or an exception. */
  datatype ParseResult = Parsed(value: Option<User>) | Unparsable

  function Parse(entry: Stored, textParse: ParseResult): ParseResult
  {
    if entry.UserJson? then Parsed(Some(entry.user)) else textParse
  }

  /** The three entries a successful sign-in or registration writes. */
  function SignedIn(storage: Storage, access: string, refresh: string, user: User): (r: Storage)
    ensures r.Keys == storage.Keys + SessionKeys
    ensures forall k :: k in storage && k !in SessionKeys ==> r[k] == storage[k]
  {
    storage[AccessKey := Text(access)][RefreshKey := Text(refresh)][UserKey := UserJson(user)]
  }

  datatype Restored = Restored(user: Option<User>, isAuthenticated: bool, storage: Storage)

  /** The mount effect: with both a token and a user entry the stored user is
      taken back (even a parsed `null`); an entry that does not parse clears
      the three keys. */
  function RestoreFrom(storage: Storage, textParse: ParseResult): (r: Restored)
    ensures r.isAuthenticated <==>
      Present(storage, AccessKey) && Present(storage, UserKey) && Parse(storage[UserKey], textParse).Parsed?
    ensures r.isAuthenticated ==> r.user == Parse(storage[UserKey], textParse).value && r.storage == storage
    ensures r.storage == storage || r.storage == storage - SessionKeys
    ensures r.storage != storage <==>
      Present(storage, AccessKey) && Present(storage, UserKey) && Parse(storage[UserKey], textParse).Unparsable?
    ensures r.storage != storage ==> !r.isAuthenticated && r.user.None?
    ensures !(Present(storage, AccessKey) && Present(storage, UserKey)) ==> r == Restored(None, false, storage)
  {
    if Present(storage, AccessKey) && Present(storage, UserKey) then
      match Parse(storage[UserKey], textParse)
      case Parsed(v) => Restored(v, true, storage)
      case Unparsable => Restored(None, false, storage - SessionKeys)
    else Restored(None, false, storage)
  }

  /** A reload after a sign-in with a non-empty token restores that user,
      whatever other text the storage holds. */
  lemma RestoreAfterSignIn(storage: Storage, access: string, refresh: string, user: User, textParse: ParseResult)
    requires access != ""
    ensures RestoreFrom(SignedIn(storage, access, refresh, user), textParse)
      == Restored(Some(user), true, SignedIn(storage, access, refresh, user))
  {
    var s := SignedIn(storage, access, refresh, user);
    assert s[AccessKey] == Text(access) && s[UserKey] == UserJson(user);
  }

  /** An empty access token is not a session: the reload signs nobody in. */
  lemma RestoreNeedsToken(storage: Storage, refresh: string, user: User, textParse: ParseResult)
    ensures !RestoreFrom(SignedIn(storage, "", refresh, user), textParse).isAuthenticated
  {
    assert SignedIn(storage, "", refresh, user)[AccessKey] == Text("");
  }

  /** A reload after signing out signs nobody in and leaves storage alone. */
  lemma RestoreAfterSignOut(storage: Storage, textParse: ParseResult)
    ensures RestoreFrom(storage - SessionKeys, textParse) == Restored(None, false, storage - SessionKeys)
  {
    assert AccessKey !in storage - SessionKeys;
  }

  /** The body of a rejected request, as far as the handlers read it:
      `detail`, `error` and `message`, and the JSON text of the whole body. */
  datatype ResponseData = ResponseData(detail: Option<string>, error: Option<string>, message: Option<string>, json: string)

  const LoginFallback := "Login failed. Please check your credentials."
  const RegisterFallback := "Registration failed. Please try again."
  const UpdateFallback := "Failed to update profile. Please try again."

  predicate Given(o: Option<string>)
  {
    o.Some? && o.value != ""
  }

  /** None of `detail`, `error` and `message` is a non-empty string. */
  predicate NoneGiven(d: ResponseData)
  {
    !Given(d.detail) && !Given(d.error) && !Given(d.message)
  }

  /** `detail || error || message` of the response body (`|| JSON.stringify(body)`
      as well when `withJson`), else the fixed fallback. `data` is `None`
      when no response arrived. */
  function ErrorMessage(data: Option<ResponseData>, withJson: bool, fallback: string): (r: string)
    ensures data.Some? && Given(data.value.detail) ==> r == data.value.detail.value
    ensures data.Some? && !Given(data.value.detail) && Given(data.value.error) ==> r == data.value.error.value
    ensures data.Some? && !Given(data.value.detail) && !Given(data.value.error) && Given(data.value.message) ==>
      r == data.value.message.value
    ensures data.Some? && NoneGiven(data.value) && withJson && data.value.json != "" ==> r == data.value.json
    ensures data.Some? && NoneGiven(data.value) && !(withJson && data.value.json != "") ==> r == fallback
    ensures r == fallback || (data.Some? && r != "")
    ensures data.None? ==> r == fallback
  {
    if data.None? then fallback
    else if Given(data.value.detail) then data.value.detail.value
    else if Given(data.value.error) then data.value.error.value
    else if Given(data.value.message) then data.value.message.value
    else if withJson && data.value.json != "" then data.value.json
    else fallback
  }

  /** The profile-update message never falls back to its default when a
      response with a body arrived: it is the same field the sign-in message
      would show, or else the JSON text of the body. */
  lemma UpdateFallbackOnlyWithoutResponse(data: Option<ResponseData>)
    requires data.Some? && data.value.json != ""
    requires forall o | o in [data.value.detail, data.value.error, data.value.message] :: Given(o) ==> o.value != UpdateFallback
    requires data.value.json != UpdateFallback
    ensures ErrorMessage(data, true, UpdateFallback) != UpdateFallback
    ensures NoneGiven(data.value) ==> ErrorMessage(data, true, UpdateFallback) == data.value.json
    ensures !NoneGiven(data.value) ==> ErrorMessage(data, true, UpdateFallback) == ErrorMessage(data, false, LoginFallback)
  {
    assert data.value.detail in [data.value.detail, data.value.error, data.value.message];
    assert data.value.error in [data.value.detail, data.value.error, data.value.message];
    assert data.value.message in [data.value.detail, data.value.error, data.value.message];
  }

  /** The keys `updateUser` strips before sending. */
  const ReadOnlyFields := {"id", "username", "email", "date_joined"}

  /** Values other than `''`, `null` and `undefined` are kept, `0` and
      `false` included. */
  predicate Meaningful(v: Value)
  {
    v != Str("") && v != Null && v != Undefined
  }

  /** The payload of the profile update. */
  function Cleaned(userData: User): User
  {
    map k | k in userData && k !in ReadOnlyFields && Meaningful(userData[k]) :: userData[k]
  }

  /** The payload holds exactly the writable fields with a meaningful value,
      each unchanged. */
  lemma CleanedMeaning(userData: User)
    ensures forall k :: k in Cleaned(userData) <==> k in userData && k !in ReadOnlyFields && Meaningful(userData[k])
    ensures forall k :: k in Cleaned(userData) ==> Cleaned(userData)[k] == userData[k]
    ensures Cleaned(userData).Keys !! ReadOnlyFields
    ensures forall k :: k in userData && k !in ReadOnlyFields && userData[k] in {Num(0), Bool(false)} ==> k in Cleaned(userData)
  {
  }

  /** Cleaning a cleaned payload changes nothing. */
  lemma CleanedIdempotent(userData: User)
    ensures Cleaned(Cleaned(userData)) == Cleaned(userData)
  {
    CleanedMeaning(userData);
    CleanedMeaning(Cleaned(userData));
  }

  datatype SignInResult = Signed(access: string, refresh: string, user: User) | Rejected(data: Option<ResponseData>)
  datatype UpdateResult = Updated(user: User) | UpdateRejected(data: Option<ResponseData>)

  class Session {
    var user: Option<User>
    var isAuthenticated: bool
    var isLoading: bool
    var error: Option<string>
    var storage: Storage

    /** A fresh provider over whatever the browser kept. */
    constructor (kept: Storage)
      ensures user.None? && !isAuthenticated && !isLoading && error.None? && storage == kept
    {
      user := None;
      isAuthenticated := false;
      isLoading := false;
      error := None;
      storage := kept;
    }

    /** The mount effect. */
    method Restore(textParse: ParseResult)
      requires user.None? && !isAuthenticated
      modifies this
      ensures Restored(user, isAuthenticated, storage) == RestoreFrom(old(storage), textParse)
      ensures isLoading == old(isLoading) && error == old(error)
    {
      if Present(storage, AccessKey) && Present(storage, UserKey) {
        var parsed := Parse(storage[UserKey], textParse);
        if parsed.Parsed? {
          user := parsed.value;
          isAuthenticated := true;
        } else {
          storage := storage - SessionKeys;
        }
      }
    }

    /** `login` and `register` share this shape: on success the tokens and
      the user are stored and the session is signed in; on failure the
      message is shown and thrown. Loading ends either way. */
    method SignIn(result: SignInResult, fallback: string) returns (outcome: Outcome<()>)
      modifies this
      ensures !isLoading
      ensures result.Signed? ==>
        storage == SignedIn(old(storage), result.access, result.refresh, result.user)
        && user == Some(result.user) && isAuthenticated && error.None? && outcome.Ok?
      ensures result.Rejected? ==>
        storage == old(storage) && user == old(user) && isAuthenticated == old(isAuthenticated)
        && error == Some(ErrorMessage(result.data, false, fallback))
        && outcome == Failed(ErrorMessage(result.data, false, fallback))
    {
      isLoading := true;
      error := None;
      if result.Signed? {
        storage := storage[AccessKey := Text(result.access)];
        storage := storage[RefreshKey := Text(result.refresh)];
        storage := storage[UserKey := UserJson(result.user)];
        user := Some(result.user);
        isAuthenticated := true;
        outcome := Ok(());
      } else {
        var message := ErrorMessage(result.data, false, fallback);
        error := Some(message);
        outcome := Failed(message);
      }
      isLoading := false;
    }

    method Login(result: SignInResult) returns (outcome: Outcome<()>)
      modifies this
      ensures !isLoading
      ensures result.Signed? ==>
        storage == SignedIn(old(storage), result.access, result.refresh, result.user)
        && user == Some(result.user) && isAuthenticated && error.None? && outcome.Ok?
      ensures result.Rejected? ==>
        storage == old(storage) && user == old(user) && isAuthenticated == old(isAuthenticated)
        && error == Some(ErrorMessage(result.data, false, LoginFallback)) && outcome.Failed?
    {
      outcome := SignIn(result, LoginFallback);
    }

    method Register(result: SignInResult) returns (outcome: Outcome<()>)
      modifies this
      ensures !isLoading
      ensures result.Signed? ==>
        storage == SignedIn(old(storage), result.access, result.refresh, result.user)
        && user == Some(result.user) && isAuthenticated && error.None? && outcome.Ok?
      ensures result.Rejected? ==>
        storage == old(storage) && user == old(user) && isAuthenticated == old(isAuthenticated)
        && error == Some(ErrorMessage(result.data, false, RegisterFallback)) && outcome.Failed?
    {
      outcome := SignIn(result, RegisterFallback);
    }

    /** `logout`: the three entries go, nothing else in storage changes. */
    method Logout()
      modifies this
      ensures storage == old(storage) - SessionKeys
      ensures user.None? && !isAuthenticated && error.None? && isLoading == old(isLoading)
    {
      storage := storage - SessionKeys;
      user := None;
      isAuthenticated := false;
      error := None;
    }

    method ClearError()
      modifies this
      ensures error.None?
      ensures user == old(user) && isAuthenticated == old(isAuthenticated)
      ensures isLoading == old(isLoading) && storage == old(storage)
    {
      error := None;
    }

    /** The `forEach` over the object's keys that builds `cleanedData`. */
    static method Clean(userData: User) returns (cleaned: User)
      ensures cleaned == Cleaned(userData)
    {
      var updateData := userData - ReadOnlyFields;
      cleaned := map[];
      var keys := updateData.Keys;
      while keys != {}
        invariant keys <= updateData.Keys
        invariant cleaned == map k | k in updateData && k !in keys && Meaningful(updateData[k]) :: updateData[k]
        decreases keys
      {
        var key :| key in keys;
        var value := updateData[key];
        if Meaningful(value) {
          cleaned := cleaned[key := value];
        }
        keys := keys - {key};
      }
      assert cleaned == Cleaned(userData);
    }

    /** `updateUser`: the cleaned payload is sent; the answer replaces the
      stored and the current user, or its message is shown and thrown. The
      sign-in flag never changes. */
    method UpdateUser(userData: User, result: UpdateResult) returns (payload: User, outcome: Outcome<User>)
      modifies this
      ensures payload == Cleaned(userData) && !isLoading && isAuthenticated == old(isAuthenticated)
      ensures result.Updated? ==>
        storage == old(storage)[UserKey := UserJson(result.user)] && user == Some(result.user)
        && error.None? && outcome == Ok(result.user)
      ensures result.UpdateRejected? ==>
        storage == old(storage) && user == old(user)
        && error == Some(ErrorMessage(result.data, true, UpdateFallback))
        && outcome == Failed(ErrorMessage(result.data, true, UpdateFallback))
    {
      isLoading := true;
      error := None;
      payload := Clean(userData);
      if result.Updated? {
        storage := storage[UserKey := UserJson(result.user)];
        user := Some(result.user);
        outcome := Ok(result.user);
      } else {
        var message := ErrorMessage(result.data, true, UpdateFallback);
        error := Some(message);
        outcome := Failed(message);
      }
      isLoading := false;
    }
  }
}

/** The profile page: a copy of the signed-in user's fields that can be
    edited, saved through the session's `updateUser`, or reset from the
    user. */
module ProfileSettings {
  import opened Base
  import opened Js
  import opened Text
  import opened AuthContext

  const ProfileFields := {"first_name", "last_name", "email", "phone_number", "date_of_birth", "bio",
                          "address", "city", "country", "postal_code", "profile_picture_url"}

  /** Every input but the address, which is always disabled. */
  const EditableFields := ProfileFields - {"email"}

  type Profile = map<string, string>

  const EmptyProfile: Profile := map k | k in ProfileFields :: ""

  /** `user.<field> || ''` for the string attributes the server sends. */
  function FieldText(user: User, field: string): (r: string)
    ensures field !in user ==> r == ""
    ensures field in user && user[field].Str? ==> r == user[field].s
  {
    if field in user && user[field].Str? then user[field].s else ""
  }

  /** The form filled from a user: every profile field, missing ones empty. */
  function FromUser(user: User): (r: Profile)
    ensures r.Keys == ProfileFields
    ensures forall k :: k in ProfileFields ==> r[k] == FieldText(user, k)
  {
    map k | k in ProfileFields :: FieldText(user, k)
  }

  /** A user with none of the fields gives the initial empty form. */
  lemma FromEmptyUser()
    ensures FromUser(map[]) == EmptyProfile
  {
  }

  /** The form as the JSON object handed to `updateUser`. */
  function AsUser(p: Profile): (r: User)
    ensures r.Keys == p.Keys && forall k :: k in p ==> r[k] == Str(p[k])
  {
    map k | k in p :: Str(p[k])
  }

  /** What a save sends: every non-empty field of the form except the
      address. A field emptied in the form is not sent, so saving cannot
      clear it. */
  lemma SavePayload(p: Profile)
    requires p.Keys <= ProfileFields
    ensures forall k :: k in Cleaned(AsUser(p)) <==> k in p && k != "email" && p[k] != ""
    ensures forall k :: k in Cleaned(AsUser(p)) ==> Cleaned(AsUser(p))[k] == Str(p[k])
  {
    CleanedMeaning(AsUser(p));
  }

  /** `charAt(0)` of each name, upper-cased. */
  function Initials(firstName: string, lastName: string): (r: string)
    ensures |r| <= 2
    ensures r == "" <==> firstName == "" && lastName == ""
    ensures firstName != "" ==> r[0] == UpperChar(firstName[0])
    ensures lastName != "" ==> r[|r| - 1] == UpperChar(lastName[0])
  {
    Upper((if firstName == "" then "" else firstName[..1]) + (if lastName == "" then "" else lastName[..1]))
  }

  class Page {
    var profileData: Profile
    var isEditing: bool
    var loading: bool
    const session: Session

    constructor (session: Session)
      ensures profileData == EmptyProfile && !isEditing && !loading && this.session == session
    {
      profileData := EmptyProfile;
      isEditing := false;
      loading := false;
      this.session := session;
    }

    /** The effect on `user`: a present user refills the form. */
    method Sync()
      modifies this
      ensures session.user.Some? ==> profileData == FromUser(session.user.value)
      ensures session.user.None? ==> profileData == old(profileData)
      ensures isEditing == old(isEditing) && loading == old(loading)
    {
      if session.user.Some? {
        profileData := FromUser(session.user.value);
      }
    }

    /** The Edit Profile button. */
    method StartEditing()
      requires !isEditing
      modifies this
      ensures isEditing && profileData == old(profileData) && loading == old(loading)
    {
      isEditing := true;
    }

    /** `handleInputChange` from an enabled input. */
    method HandleInputChange(name: string, value: string)
      requires isEditing && name in EditableFields
      modifies this
      ensures profileData == old(profileData)[name := value]
      ensures isEditing == old(isEditing) && loading == old(loading)
    {
      profileData := profileData[name := value];
    }

    /** `handleSave`: the form goes through `updateUser`; editing ends only
      when it succeeds, and loading ends either way. The message shown on a
      failure is the one `updateUser` threw. */
    method HandleSave(result: UpdateResult) returns (shown: Outcome<User>)
      requires isEditing
      modifies this, session
      ensures !loading && profileData == old(profileData)
      ensures isEditing <==> result.UpdateRejected?
      ensures result.Updated? ==> session.user == Some(result.user) && shown == Ok(result.user)
      ensures result.UpdateRejected? ==>
        session.user == old(session.user) && shown == Failed(ErrorMessage(result.data, true, UpdateFallback))
    {
      loading := true;
      var payload;
      payload, shown := session.UpdateUser(AsUser(profileData), result);
      if shown.Ok? {
        isEditing := false;
      }
      loading := false;
    }

    /** `handleCancel`: the form is refilled from the user (when there is
      one) and editing ends. */
    method HandleCancel()
      modifies this
      ensures session.user.Some? ==> profileData == FromUser(session.user.value)
      ensures session.user.None? ==> profileData == old(profileData)
      ensures !isEditing && loading == old(loading)
    {
      if session.user.Some? {
        profileData := FromUser(session.user.value);
      }
      isEditing := false;
    }
  }
}

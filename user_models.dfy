/** The custom user table: the upload path of profile pictures and the
    uniqueness of the login address. */
module UserModels {
  import opened Base
  import opened Text

  const PictureFolder := "profile_pictures/"

  /** `str(instance.id)`: the row's key, or `None` before the row is saved. */
  function IdText(id: Option<nat>): (r: string)
    ensures id.Some? ==> r == NatToString(id.value)
    ensures id.None? ==> r == "None"
  {
    if id.Some? then NatToString(id.value) else "None"
  }

  /** `user_profile_picture_path`. */
  function ProfilePicturePath(id: Option<nat>, filename: string): (r: string)
    ensures |r| == |PictureFolder| + |IdText(id)| + 1 + |filename|
    ensures r[..|PictureFolder|] == PictureFolder
    ensures r[|r| - |filename|..] == filename
  {
    PictureFolder + IdText(id) + "/" + filename
  }

  /** The folder part is exactly the key's text: no other slash is added and
      the file name is kept whole. */
  lemma ProfilePicturePathParts(id: Option<nat>, filename: string)
    ensures var r := ProfilePicturePath(id, filename);
      r[|PictureFolder|..|PictureFolder| + |IdText(id)|] == IdText(id)
      && r[|PictureFolder| + |IdText(id)|] == '/'
  {
  }

  /** Two rows never share a folder: for the same file name, different keys
      (a saved key, or the unsaved `None`) give different paths. */
  lemma {:induction false} ProfilePicturePathInjective(a: Option<nat>, b: Option<nat>, filename: string)
    requires ProfilePicturePath(a, filename) == ProfilePicturePath(b, filename)
    ensures a == b
  {
    ProfilePicturePathParts(a, filename);
    ProfilePicturePathParts(b, filename);
    var ta, tb := IdText(a), IdText(b);
    assert |ta| == |tb|;
    assert ta == tb;
    assert a.Some? ==> IsDigit(ta[0]);
    assert b.Some? ==> IsDigit(tb[0]);
    assert a.None? ==> ta[0] == 'N';
    assert b.None? ==> tb[0] == 'N';
    if a.Some? && b.Some? {
      NatToStringInjective(a.value, b.value);
    }
  }

  /** The columns the model reads. The password is kept as the secret the
      hash stands for: `check_password(p)` is `p == password`. */
  datatype UserRow = UserRow(
    id: nat, username: string, email: string, firstName: string, lastName: string,
    password: string, isActive: bool)

  /** `email` is unique (it is the login field) and so is `username`; keys
      are distinct and below the next key. */
  predicate UniqueRows(rows: seq<UserRow>, nextId: nat)
  {
    (forall i :: 0 <= i < |rows| ==> rows[i].id < nextId)
    && (forall i, j :: 0 <= i < j < |rows| ==>
          rows[i].id != rows[j].id && rows[i].email != rows[j].email && rows[i].username != rows[j].username)
  }

  predicate HasEmail(rows: seq<UserRow>, email: string)
  {
    exists i :: 0 <= i < |rows| && rows[i].email == email
  }

  predicate HasUsername(rows: seq<UserRow>, username: string)
  {
    exists i :: 0 <= i < |rows| && rows[i].username == username
  }

  /** A row under the next key, with an address and a user name nobody
      has, keeps the table unique. */
  lemma AppendUnique(rows: seq<UserRow>, nextId: nat, u: UserRow)
    requires UniqueRows(rows, nextId) && u.id == nextId
    requires !HasEmail(rows, u.email) && !HasUsername(rows, u.username)
    ensures UniqueRows(rows + [u], nextId + 1)
  {
    var r := rows + [u];
    forall i, j | 0 <= i < j < |r|
      ensures r[i].id != r[j].id && r[i].email != r[j].email && r[i].username != r[j].username
    {
      if j == |rows| {
        assert r[i] == rows[i] && r[j] == u;
      }
    }
  }

  /** `User.objects.get(email=...)`: with unique addresses, the row holding
      the address, if any. */
  function FindByEmail(rows: seq<UserRow>, email: string): (r: Option<nat>)
    ensures r.Some? ==> r.value < |rows| && rows[r.value].email == email
    ensures r.None? <==> !HasEmail(rows, email)
  {
    if rows == [] then None
    else if rows[0].email == email then Some(0)
    else
      var rest := FindByEmail(rows[1..], email);
      assert rest.None? ==> forall i :: 1 <= i < |rows| ==> rows[i].email != email by {
        if rest.None? {
          forall i | 1 <= i < |rows| ensures rows[i].email != email {
            assert rows[1..][i - 1] == rows[i];
          }
        }
      }
      if rest.Some? then Some(rest.value + 1) else None
  }

  /** Under unique addresses the row found is the only one with it. */
  lemma FindByEmailUnique(rows: seq<UserRow>, nextId: nat, email: string, i: nat)
    requires UniqueRows(rows, nextId) && i < |rows| && rows[i].email == email
    ensures FindByEmail(rows, email) == Some(i)
  {
    assert HasEmail(rows, email);
  }
}

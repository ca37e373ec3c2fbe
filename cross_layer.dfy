/** Facts that relate the browser client to the server: where the client's
    checks imply the server's, where they disagree, and what a round trip
    through both gives. */
module CrossLayer {
  import opened Base
  import opened Text
  import opened Js
  import opened Sorting
  import RegisterForm
  import UserModels
  import UserViews
  import ContactForm
  import ContactSerializers
  import DestinationsPage
  import DestinationSerializers
  import DestinationViews
  import LoginForm
  import DestinationDetail
  import Patterns

  /* ---------- registration ---------- */

  /** The body the registration form posts, as the server reads it. */
  function RegisterRequest(p: RegisterForm.RegisterPayload): UserViews.Data
  {
    map["username" := p.username, "email" := p.email, "first_name" := p.firstName,
        "last_name" := p.lastName, "password" := p.password, "password_confirm" := p.passwordConfirm]
  }

  /** Removing white space leaves something when there was a character that
      is not white space. */
  lemma {:induction false} WithoutSpacesKeepsVisible(rt: Runtime, s: string, i: nat)
    requires i < |s| && !IsSpace(rt, s[i])
    ensures WithoutSpaces(rt, s) != []
  {
    if !IsSpace(rt, s[0]) {
    } else {
      WithoutSpacesKeepsVisible(rt, s[1..], i - 1);
    }
  }

  /** The user name derived from a first name that is not blank is not
      empty. */
  lemma UsernameNotEmpty(firstName: string, lastName: string)
    requires !IsBlank(Browser, firstName)
    ensures RegisterForm.Username(firstName, lastName) != ""
  {
    var i :| 0 <= i < |firstName| && !IsSpace(Browser, firstName[i]);
    var l := Lower(firstName + lastName);
    assert l[i] == LowerChar(firstName[i]);
    WithoutSpacesKeepsVisible(Browser, l, i);
  }

  /** An address the sign-in and registration forms accept is not empty. */
  lemma LooseEmailNotEmpty(s: string)
    requires Patterns.LooseEmail(s)
    ensures s != ""
  {
    var a, d :| 1 <= a && a + 1 < d && d + 1 < |s| && Patterns.LooseAt(s, a, d);
  }

  /** A request whose six fields are all filled in misses none. */
  lemma FilledRequestMissesNothing(p: RegisterForm.RegisterPayload)
    requires p.username != "" && p.email != "" && p.firstName != "" && p.lastName != ""
    requires p.password != "" && p.passwordConfirm != ""
    ensures UserViews.Missing(RegisterRequest(p)) == []
  {
    var data := RegisterRequest(p);
    assert UserViews.Given(data, "email") && UserViews.Given(data, "username");
    assert UserViews.Given(data, "first_name") && UserViews.Given(data, "last_name");
    assert UserViews.Given(data, "password") && UserViews.Given(data, "password_confirm");
    AllGivenMissesNothing(data);
  }

  lemma AllGivenMissesNothing(data: UserViews.Data)
    requires UserViews.Given(data, "email") && UserViews.Given(data, "username")
    requires UserViews.Given(data, "first_name") && UserViews.Given(data, "last_name")
    requires UserViews.Given(data, "password") && UserViews.Given(data, "password_confirm")
    ensures UserViews.Missing(data) == []
  {
    UserViews.MissingMeaning(data);
  }

  /** The request a valid form sends has every field the server requires,
      matching passwords and a password of at least six characters. */
  lemma ValidFormRequestComplete(f: RegisterForm.FormData)
    requires RegisterForm.FormValid(f)
    ensures var data := RegisterRequest(RegisterForm.Payload(f));
      UserViews.Missing(data) == []
      && UserViews.Get(data, "password") == UserViews.Get(data, "password_confirm")
      && |UserViews.Get(data, "password")| >= UserViews.MinPasswordLength
      && UserViews.Get(data, "email") == f.email
  {
    var p := RegisterForm.Payload(f);
    UsernameNotEmpty(f.firstName, f.lastName);
    LooseEmailNotEmpty(f.email);
    assert f.firstName != "" && f.lastName != "" && f.password != "";
    FilledRequestMissesNothing(p);
  }

  /** A registration the form lets through passes every server check except
      the uniqueness ones: all six fields are there, the passwords agree and
      are long enough. So the server can only refuse it for a taken address
      or user name. */
  lemma ClientRegistrationPassesServerChecks(f: RegisterForm.FormData, rows: seq<UserModels.UserRow>)
    requires RegisterForm.FormValid(f)
    ensures var p := RegisterForm.Payload(f);
      UserViews.RegisterRejection(rows, RegisterRequest(p)) ==
        if UserModels.HasEmail(rows, f.email) then Some("User with email " + f.email + " already exists")
        else if UserModels.HasUsername(rows, p.username) then Some("User with username " + p.username + " already exists")
        else None
  {
    ValidFormRequestComplete(f);
  }

  /** The client asks for eight characters and the server for six: every
      password the form accepts is long enough for the server, and a
      six-character one the server would take is refused by the form. */
  lemma PasswordLengthGap()
    ensures forall pw :: RegisterForm.PasswordError(pw).None? ==> |pw| >= UserViews.MinPasswordLength
    ensures RegisterForm.PasswordError("Abc123") == Some(RegisterForm.PasswordTooShort)
    ensures |"Abc123"| >= UserViews.MinPasswordLength
  {
  }

  /* ---------- contact form ---------- */

  const LongMessage := seq(1001, _ => 'a')

  /** No white space at either end: stripping changes nothing. */
  lemma TrimOfLetters(s: string)
    requires forall i :: 0 <= i < |s| ==> s[i] == 'a'
    ensures Trim(Python, s) == s
  {
    if s != [] {
      assert TrimStart(Python, s) == s;
      assert TrimEnd(Python, s) == s;
    }
  }

  /** The client refuses messages over 1000 characters; the server has no
      upper bound. */
  lemma MessageCapOnlyInClient()
    ensures ContactForm.MessageError(LongMessage) == Some(ContactForm.MessageTooLong)
    ensures ContactSerializers.ValidateMessage(LongMessage) == Ok(LongMessage)
  {
    assert LongMessage[0] == 'a';
    assert !IsBlank(Browser, LongMessage);
    TrimOfLetters(LongMessage);
  }

  /** The runtimes disagree on white space: U+001C is white space to Python
      only, so a message the client counts as ten characters is one
      character to the server, which refuses it. */
  lemma WhitespaceGap()
    ensures ContactForm.MessageError("\U{1C}\U{1C}\U{1C}\U{1C}\U{1C}\U{1C}\U{1C}\U{1C}\U{1C}a").None?
    ensures ContactSerializers.ValidateMessage("\U{1C}\U{1C}\U{1C}\U{1C}\U{1C}\U{1C}\U{1C}\U{1C}\U{1C}a").Failed?
  {
    var m := "\U{1C}\U{1C}\U{1C}\U{1C}\U{1C}\U{1C}\U{1C}\U{1C}\U{1C}a";
    assert !IsSpace(Browser, m[0]);
    assert !IsBlank(Browser, m);
    TrimShape(Python, m);
    assert m[9..] == "a";
  }

  /** The phone checks accept different sets: the client removes any white
      space but keeps parentheses and dashes, the server removes spaces,
      dashes, parentheses and '+' but not tabs. A tab is let through by the
      client and refused by the server. */
  lemma TabInPhoneOnlyClientAccepts()
    ensures ContactForm.PhoneError("+1\t5").None?
    ensures ContactSerializers.ValidatePhone(Some("+1\t5")).Failed?
  {
    ClientKeepsTabPhone();
    ServerKeepsTab();
    var digits := ContactSerializers.PhoneDigits("+1\t5");
    var k :| 0 <= k < |digits| && digits[k] == '\t';
    assert !IsDigit(digits[k]);
  }

  lemma ClientKeepsTabPhone()
    ensures ContactForm.PhoneError("+1\t5").None?
  {
    var s := "+1\t5";
    assert !IsSpace(Browser, s[0]) && !IsSpace(Browser, s[1]) && IsSpace(Browser, s[2]) && !IsSpace(Browser, s[3]);
    assert WithoutSpaces(Browser, s[3..]) == "5";
    assert WithoutSpaces(Browser, s[2..]) == "5";
    assert WithoutSpaces(Browser, s) == "+15";
    assert ContactForm.PhonePattern("+15");
  }

  /** Removing characters keeps every character that is not removed. */
  lemma {:induction false} WithoutKeeps(s: string, drop: set<char>, c: char)
    requires c in s && c !in drop
    ensures c in Without(s, drop)
  {
    if s[0] != c {
      WithoutKeeps(s[1..], drop, c);
    }
  }

  lemma ServerKeepsTab()
    ensures '\t' in ContactSerializers.PhoneDigits("+1\t5")
  {
    var s := "+1\t5";
    assert s[2] == '\t';
    WithoutKeeps(s, {' ', '-', '(', ')'}, '\t');
    WithoutKeeps(Without(s, {' ', '-', '(', ')'}), {'+'}, '\t');
  }

  /** Parentheses are refused by the client and removed by the server. */
  lemma ParenthesesOnlyServerAccepts()
    ensures ContactForm.PhoneError("(1)2").Some?
    ensures ContactSerializers.ValidatePhone(Some("(1)2")).Ok?
  {
    ClientKeepsParentheses();
    ServerDropsParentheses();
  }

  lemma ClientKeepsParentheses()
    ensures ContactForm.PhoneError("(1)2").Some?
  {
    var s := "(1)2";
    assert !IsSpace(Browser, s[0]) && !IsSpace(Browser, s[1]) && !IsSpace(Browser, s[2]) && !IsSpace(Browser, s[3]);
    assert WithoutSpaces(Browser, s[3..]) == "2";
    assert WithoutSpaces(Browser, s[2..]) == ")2";
    assert WithoutSpaces(Browser, s[1..]) == "1)2";
    assert WithoutSpaces(Browser, s) == s;
  }

  lemma ServerDropsParentheses()
    ensures ContactSerializers.PhoneDigits("(1)2") == "12"
  {
    var s := "(1)2";
    var seps := {' ', '-', '(', ')'};
    assert Without(s[3..], seps) == "2";
    assert Without(s[2..], seps) == "2";
    assert Without(s[1..], seps) == "12";
    assert Without(s, seps) == "12";
    var t := "12";
    assert Without(t[1..], {'+'}) == "2";
    assert Without(t, {'+'}) == "12";
  }

  /* ---------- destinations ---------- */

  /** The server reports 42 reviews for every destination, so the client's
      default "popularity" order is the order the list arrived in. */
  lemma PopularityOrderIsArrivalOrder(s: seq<DestinationsPage.ClientDestination>)
    requires forall i :: 0 <= i < |s| ==> s[i].totalReviews == Number(DestinationSerializers.TotalReviews)
    ensures DestinationsPage.SortDestinations(s, "popularity") == s
  {
    ConstantKeySorted(s, DestinationsPage.Reviews, true);
    SortByStableWhenSorted(s, DestinationsPage.Reviews, true);
  }

  /** The client's search also looks at the category name; the server's
      does not. A destination found only through its category shows up in
      the client's filter and not in the server's search. */
  lemma CategoryOnlyInClientSearch()
    ensures DestinationsPage.MatchesSearch(
      DestinationsPage.ClientDestination(1, Some("X"), Some("X"), Some("X"), Some("X"), Some("Beach"), None,
        Absent, Absent, Absent, Absent, None), "beach")
    ensures !DestinationViews.Matches(
      DestinationSerializers.Destination(1, "X", "X", "X", Some("Beach"), "X", 0, None, false, 0), "beach")
  {
    assert Lower("Beach") == "beach";
    assert OccursAt(Lower("Beach"), Lower("beach"), 0);
  }

  /* ---------- sign-in redirect ---------- */

  /** Book Now while signed out goes to the sign-in page carrying the
      destination's path; the sign-in page built from that location sends
      the visitor back there once signed in. */
  method BookNowReturnsAfterSignIn(detail: DestinationDetail.Page, routeId: string) returns (back: Nav)
    modifies detail
    ensures back == Go("/destinations/" + routeId)
  {
    var nav := detail.HandleBookNow(false, routeId);
    var login := new LoginForm.Page(nav.from);
    assert ("/destinations/" + routeId)[0] == '/';
    back := login.RedirectIfSignedIn(true);
  }
}

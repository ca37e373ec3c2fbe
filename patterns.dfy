/** The address patterns the client forms test, written out as predicates
    over the characters they accept. */
module Patterns {
  import opened Base
  import opened Text

  /** Neither white space nor '@': the class `[^\s@]`. */
  predicate NoSpaceOrAt(s: string)
  {
    forall i :: 0 <= i < |s| ==> s[i] != '@' && !IsSpace(Browser, s[i])
  }

  /** A '.' with at least one character on each side. */
  predicate InnerDot(d: string)
  {
    exists k :: 0 < k < |d| - 1 && d[k] == '.'
  }

  /** `/^[^\s@]+@[^\s@]+\.[^\s@]+$/`: a non-empty local part, '@', and a
      domain free of '@' and white space with an inner '.'. */
  predicate AnchoredEmail(s: string)
  {
    exists a :: 0 < a < |s| && s[a] == '@' && NoSpaceOrAt(s[..a]) && NoSpaceOrAt(s[a + 1..]) && InnerDot(s[a + 1..])
  }

  /** An address the pattern accepts has no white space and exactly one
      '@', with text on both sides of it. */
  lemma AnchoredEmailShape(s: string, i: int, j: int)
    requires AnchoredEmail(s) && 0 <= i < |s| && 0 <= j < |s|
    ensures !IsSpace(Browser, s[i])
    ensures s[i] == '@' && s[j] == '@' ==> i == j && 0 < i < |s| - 1
  {
    var a :| 0 < a < |s| && s[a] == '@' && NoSpaceOrAt(s[..a]) && NoSpaceOrAt(s[a + 1..]) && InnerDot(s[a + 1..]);
    if i < a {
      assert s[..a][i] == s[i];
    } else if i > a {
      assert s[a + 1..][i - a - 1] == s[i];
    }
    if j < a {
      assert s[..a][j] == s[j];
    } else if j > a {
      assert s[a + 1..][j - a - 1] == s[j];
    }
  }

  /** `/\S+@\S+\.\S+/`, unanchored: somewhere in the string a non-space
      character, '@', a run of non-space characters, '.', and a non-space
      character. */
  predicate LooseEmail(s: string)
  {
    exists a, d | 1 <= a && a + 1 < d && d + 1 < |s| :: LooseAt(s, a, d)
  }

  predicate LooseAt(s: string, a: int, d: int)
  {
    1 <= a && a + 1 < d && d + 1 < |s|
    && s[a] == '@' && s[d] == '.' && !IsSpace(Browser, s[a - 1]) && !IsSpace(Browser, s[d + 1])
    && forall k :: a < k < d ==> !IsSpace(Browser, s[k])
  }

  const EmailRequired := "Email is required"
  const EmailInvalid := "Email is invalid"

  /** The address check of the sign-in and registration forms: only the
      empty string is missing; anything else is tested against the loose
      pattern. */
  function LooseEmailError(email: string): (r: Option<string>)
    ensures r == Some(EmailRequired) <==> email == ""
    ensures r == Some(EmailInvalid) <==> email != "" && !LooseEmail(email)
    ensures r.None? <==> LooseEmail(email)
  {
    if email == "" then Some(EmailRequired)
    else if !LooseEmail(email) then Some(EmailInvalid)
    else None
  }

  /** Every address the contact form accepts passes the sign-in and
      registration check too. */
  lemma AnchoredImpliesLoose(s: string)
    requires AnchoredEmail(s)
    ensures LooseEmail(s)
  {
    var a :| 0 < a < |s| && s[a] == '@' && NoSpaceOrAt(s[..a]) && NoSpaceOrAt(s[a + 1..]) && InnerDot(s[a + 1..]);
    var dom := s[a + 1..];
    var k :| 0 < k < |dom| - 1 && dom[k] == '.';
    var d := a + 1 + k;
    forall i | 0 <= i < |s| ensures !IsSpace(Browser, s[i]) {
      AnchoredEmailShape(s, i, i);
    }
    assert s[d] == dom[k];
    assert LooseAt(s, a, d);
  }

  /** The converse fails: the loose check accepts text around the address
      and a second '@'. */
  lemma LooseAcceptsMore()
    ensures LooseEmail("to: a@b.c") && !AnchoredEmail("to: a@b.c")
    ensures LooseEmail("a@b@c.d") && !AnchoredEmail("a@b@c.d")
  {
    assert LooseAt("to: a@b.c", 5, 7);
    assert LooseAt("a@b@c.d", 3, 5);
    assert IsSpace(Browser, "to: a@b.c"[3]);
    if AnchoredEmail("to: a@b.c") {
      AnchoredEmailShape("to: a@b.c", 3, 3);
    }
    if AnchoredEmail("a@b@c.d") {
      AnchoredEmailShape("a@b@c.d", 1, 3);
    }
  }
}

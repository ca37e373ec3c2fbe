/** String helpers shared by the client (JavaScript) and the server (Python).
    The two runtimes disagree on what counts as white space, so the runtime is
    an explicit argument wherever white space matters. Case mapping is ASCII
    only. */
module Text {

  datatype Runtime = Browser | Python

  /** `\s` and `String.prototype.trim` in JavaScript; `str.isspace` and
      `str.strip` in Python. */
  predicate IsSpace(rt: Runtime, c: char)
  {
    match rt
    case Browser =>
      c in {'\t', '\n', '\U{B}', '\U{C}', '\r', ' ', '\U{A0}', '\U{1680}',
            '\U{2000}', '\U{2001}', '\U{2002}', '\U{2003}', '\U{2004}', '\U{2005}',
            '\U{2006}', '\U{2007}', '\U{2008}', '\U{2009}', '\U{200A}',
            '\U{2028}', '\U{2029}', '\U{202F}', '\U{205F}', '\U{3000}', '\U{FEFF}'}
    case Python =>
      c in {'\t', '\n', '\U{B}', '\U{C}', '\r', '\U{1C}', '\U{1D}', '\U{1E}', '\U{1F}',
            ' ', '\U{85}', '\U{A0}', '\U{1680}',
            '\U{2000}', '\U{2001}', '\U{2002}', '\U{2003}', '\U{2004}', '\U{2005}',
            '\U{2006}', '\U{2007}', '\U{2008}', '\U{2009}', '\U{200A}',
            '\U{2028}', '\U{2029}', '\U{202F}', '\U{205F}', '\U{3000}'}
  }

  /** Every character is white space (the empty string included). */
  predicate IsBlank(rt: Runtime, s: string)
  {
    forall i :: 0 <= i < |s| ==> IsSpace(rt, s[i])
  }

  function TrimStart(rt: Runtime, s: string): (r: string)
    ensures |r| <= |s|
    ensures r == [] || !IsSpace(rt, r[0])
  {
    if |s| > 0 && IsSpace(rt, s[0]) then TrimStart(rt, s[1..]) else s
  }

  /** `TrimStart` keeps a suffix and what it drops is white space. */
  lemma {:induction false} TrimStartShape(rt: Runtime, s: string)
    ensures TrimStart(rt, s) == s[|s| - |TrimStart(rt, s)|..]
    ensures IsBlank(rt, s[..|s| - |TrimStart(rt, s)|])
  {
    if |s| > 0 && IsSpace(rt, s[0]) {
      var r := TrimStart(rt, s[1..]);
      TrimStartShape(rt, s[1..]);
      assert s[1..][..|s| - 1 - |r|] == s[1..|s| - |r|];
    }
  }

  function TrimEnd(rt: Runtime, s: string): (r: string)
    ensures |r| <= |s|
    ensures r == [] || !IsSpace(rt, r[|r| - 1])
  {
    if |s| > 0 && IsSpace(rt, s[|s| - 1]) then TrimEnd(rt, s[..|s| - 1]) else s
  }

  /** `TrimEnd` keeps a prefix and what it drops is white space. */
  lemma {:induction false} TrimEndShape(rt: Runtime, s: string)
    ensures TrimEnd(rt, s) == s[..|TrimEnd(rt, s)|]
    ensures IsBlank(rt, s[|TrimEnd(rt, s)|..])
  {
    if |s| > 0 && IsSpace(rt, s[|s| - 1]) {
      var r := TrimEnd(rt, s[..|s| - 1]);
      TrimEndShape(rt, s[..|s| - 1]);
      assert s[..|s| - 1][|r|..] + [s[|s| - 1]] == s[|r|..];
    }
  }

  /** `s.trim()` / `s.strip()`. */
  function Trim(rt: Runtime, s: string): string
  {
    TrimEnd(rt, TrimStart(rt, s))
  }

  /** A string is empty after trimming exactly when it is blank: the reading
      every "required" check on the client and the server relies on. */
  lemma {:induction false} TrimEmptyIffBlank(rt: Runtime, s: string)
    ensures Trim(rt, s) == [] <==> IsBlank(rt, s)
  {
    var t := TrimStart(rt, s);
    TrimStartShape(rt, s);
    TrimEndShape(rt, t);
    assert t == [] || t[0] == s[|s| - |t|];
    assert t[0..] == t && s[..|s| - 0] == s;
  }

  /** Trimming keeps the characters in the middle and the length never grows. */
  lemma TrimShape(rt: Runtime, s: string)
    ensures |Trim(rt, s)| <= |s|
    ensures Trim(rt, s) == [] || (!IsSpace(rt, Trim(rt, s)[0]) && !IsSpace(rt, Trim(rt, s)[|Trim(rt, s)| - 1]))
  {
    var t := TrimStart(rt, s);
    var u := TrimEnd(rt, t);
    TrimEndShape(rt, t);
    assert u == [] || u[0] == t[0];
  }

  /** Trimming twice is trimming once. */
  lemma TrimIdempotent(rt: Runtime, s: string)
    ensures Trim(rt, Trim(rt, s)) == Trim(rt, s)
  {
    var t := Trim(rt, s);
    TrimShape(rt, s);
    assert TrimStart(rt, t) == t;
    assert TrimEnd(rt, t) == t;
  }

  function LowerChar(c: char): char
  {
    if 'A' <= c <= 'Z' then (c as int + 32) as char else c
  }

  function UpperChar(c: char): char
  {
    if 'a' <= c <= 'z' then (c as int - 32) as char else c
  }

  /** `toLowerCase()` / `lower()` restricted to ASCII letters. */
  function Lower(s: string): (r: string)
    ensures |r| == |s|
    ensures forall i :: 0 <= i < |s| ==> r[i] == LowerChar(s[i])
  {
    if s == [] then [] else [LowerChar(s[0])] + Lower(s[1..])
  }

  function Upper(s: string): (r: string)
    ensures |r| == |s|
    ensures forall i :: 0 <= i < |s| ==> r[i] == UpperChar(s[i])
  {
    if s == [] then [] else [UpperChar(s[0])] + Upper(s[1..])
  }

  lemma LowerIdempotent(s: string)
    ensures Lower(Lower(s)) == Lower(s)
  {
    assert forall i :: 0 <= i < |s| ==> LowerChar(LowerChar(s[i])) == LowerChar(s[i]);
  }

  /** Lower-casing works character by character, so it distributes over
      concatenation. */
  lemma LowerAppend(a: string, b: string)
    ensures Lower(a + b) == Lower(a) + Lower(b)
  {
    assert forall i :: 0 <= i < |a + b| ==> Lower(a + b)[i] == (Lower(a) + Lower(b))[i];
  }

  /** Lower-casing a trimmed string leaves nothing to trim: ASCII case
      mapping neither makes nor unmakes white space. */
  lemma TrimLowerTrimmed(rt: Runtime, s: string)
    ensures Trim(rt, Lower(Trim(rt, s))) == Lower(Trim(rt, s))
  {
    var t := Lower(Trim(rt, s));
    TrimShape(rt, s);
    assert TrimStart(rt, t) == t;
    assert TrimEnd(rt, t) == t;
  }

  /** `s.includes(sub)` / Python's `sub in s`. */
  predicate Contains(s: string, sub: string)
  {
    exists i | 0 <= i <= |s| - |sub| :: OccursAt(s, sub, i)
  }

  predicate OccursAt(s: string, sub: string, i: int)
  {
    0 <= i <= |s| - |sub| && s[i..i + |sub|] == sub
  }

  lemma ContainsEmpty(s: string)
    ensures Contains(s, [])
  {
    assert OccursAt(s, [], 0);
  }

  /** A string that contains a non-empty pattern is itself non-empty. */
  lemma ContainsNonEmpty(s: string, sub: string)
    requires sub != [] && Contains(s, sub)
    ensures s != []
  {
  }

  /** Case-insensitive substring test (`icontains`, or `toLowerCase().includes`). */
  predicate ContainsIgnoreCase(s: string, sub: string)
  {
    Contains(Lower(s), Lower(sub))
  }

  predicate IsDigit(c: char)
  {
    '0' <= c <= '9'
  }

  predicate IsAsciiLower(c: char)
  {
    'a' <= c <= 'z'
  }

  predicate IsAsciiUpper(c: char)
  {
    'A' <= c <= 'Z'
  }

  predicate AllDigits(s: string)
  {
    forall i :: 0 <= i < |s| ==> IsDigit(s[i])
  }

  /** `s.replace(/\s/g, '')` in JavaScript. */
  function WithoutSpaces(rt: Runtime, s: string): (r: string)
    ensures |r| <= |s|
    ensures forall i :: 0 <= i < |r| ==> !IsSpace(rt, r[i])
  {
    if s == [] then []
    else if IsSpace(rt, s[0]) then WithoutSpaces(rt, s[1..])
    else [s[0]] + WithoutSpaces(rt, s[1..])
  }

  /** Removing white space works character by character: it distributes
      over concatenation. */
  lemma {:induction false} WithoutSpacesAppend(rt: Runtime, a: string, b: string)
    ensures WithoutSpaces(rt, a + b) == WithoutSpaces(rt, a) + WithoutSpaces(rt, b)
  {
    if a == [] {
      assert a + b == b;
    } else {
      assert (a + b)[0] == a[0] && (a + b)[1..] == a[1..] + b;
      WithoutSpacesAppend(rt, a[1..], b);
    }
  }

  /** Lower-casing maps no character to or from browser white space, so it
      commutes with removing white space. */
  lemma {:induction false} WithoutSpacesLower(s: string)
    ensures WithoutSpaces(Browser, Lower(s)) == Lower(WithoutSpaces(Browser, s))
  {
    if s != [] {
      var l := Lower(s);
      assert l[0] == LowerChar(s[0]) && l[1..] == Lower(s[1..]);
      assert IsSpace(Browser, l[0]) <==> IsSpace(Browser, s[0]);
      WithoutSpacesLower(s[1..]);
      if !IsSpace(Browser, s[0]) {
        LowerAppend([s[0]], WithoutSpaces(Browser, s[1..]));
      }
    }
  }

  /** A string without white space is left as it is. */
  lemma {:induction false} WithoutSpacesNoop(rt: Runtime, s: string)
    requires forall i :: 0 <= i < |s| ==> !IsSpace(rt, s[i])
    ensures WithoutSpaces(rt, s) == s
  {
    if s != [] {
      WithoutSpacesNoop(rt, s[1..]);
    }
  }

  /** Chained `s.replace(c, '')` for each character in `drop` (Python's
      `replace` removes every occurrence). */
  function Without(s: string, drop: set<char>): (r: string)
    ensures |r| <= |s|
    ensures forall i :: 0 <= i < |r| ==> r[i] !in drop
    ensures forall c :: c in r && c !in drop ==> c in s
  {
    if s == [] then []
    else if s[0] in drop then Without(s[1..], drop)
    else [s[0]] + Without(s[1..], drop)
  }

  function DigitChar(d: nat): char
    requires d < 10
  {
    ('0' as int + d) as char
  }

  /** `str(n)` for a natural number: decimal, no leading zeros. */
  function NatToString(n: nat): (r: string)
    ensures |r| >= 1 && AllDigits(r)
    ensures n >= 10 <==> |r| >= 2
  {
    if n < 10 then [DigitChar(n)] else NatToString(n / 10) + [DigitChar(n % 10)]
  }

  /** Different numbers are printed differently. */
  lemma {:induction false} NatToStringInjective(a: nat, b: nat)
    requires NatToString(a) == NatToString(b)
    ensures a == b
  {
    var sa, sb := NatToString(a), NatToString(b);
    if a < 10 || b < 10 {
      assert a < 10 && b < 10;
      assert sa[0] == DigitChar(a) && sb[0] == DigitChar(b);
    } else {
      assert sa[..|sa| - 1] == NatToString(a / 10);
      assert sb[..|sb| - 1] == NatToString(b / 10);
      NatToStringInjective(a / 10, b / 10);
      assert DigitChar(a % 10) == sa[|sa| - 1] == sb[|sb| - 1] == DigitChar(b % 10);
    }
  }

  /** Text before the first occurrence of `sep` (the whole string if none). */
  function Before(s: string, sep: char): (r: string)
    ensures |r| <= |s| && r == s[..|r|]
    ensures sep !in r
  {
    if s == [] || s[0] == sep then [] else [s[0]] + Before(s[1..], sep)
  }

  /** Text after the first occurrence of `sep` ("" if none). */
  function After(s: string, sep: char): (r: string)
    ensures |r| < |s| || r == []
  {
    if s == [] then [] else if s[0] == sep then s[1..] else After(s[1..], sep)
  }

  /** `s.split(sep)[0]` and `s.split(sep).slice(1).join(sep)` take the string
      apart at its first separator and nothing is lost. */
  lemma {:induction false} BeforeAfter(s: string, sep: char)
    ensures sep in s ==> s == Before(s, sep) + [sep] + After(s, sep)
    ensures sep !in s ==> Before(s, sep) == s && After(s, sep) == []
  {
    if s != [] && s[0] != sep {
      BeforeAfter(s[1..], sep);
      assert s == [s[0]] + s[1..];
    }
  }

  /** `", ".join(parts)`. */
  function Join(parts: seq<string>, sep: string): string
  {
    if parts == [] then []
    else if |parts| == 1 then parts[0]
    else parts[0] + sep + Join(parts[1..], sep)
  }
}

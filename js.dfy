/** The few JavaScript value rules the client code leans on. */
module Js {
  import opened Base
  import opened Text

  /** A numeric field as it reaches the client. The back end serialises
      `DecimalField`s as strings such as "1299.00" (always truthy, even
      "0.00"), plain integers as numbers (falsy when 0), and a field may be
      missing altogether. Values are scaled integers: cents for money,
      hundredths for ratings, whole days for durations. */
  datatype Numeric = Absent | Number(n: int) | Decimal(d: int)

  predicate Truthy(x: Numeric)
  {
    x.Decimal? || (x.Number? && x.n != 0)
  }

  /** `a || b`. */
  function Or(a: Numeric, b: Numeric): (r: Numeric)
    ensures Truthy(a) ==> r == a
    ensures !Truthy(a) ==> r == b
  {
    if Truthy(a) then a else b
  }

  /** `parseFloat(x || 0)` (or `Number(x || 0)`): the value, with a missing
      field read as 0. */
  function ValueOrZero(x: Numeric): (r: int)
    ensures !Truthy(x) ==> r == 0
  {
    match x
    case Absent => 0
    case Number(n) => n
    case Decimal(d) => d
  }

  /** Any JSON-shaped value a loosely typed field may hold. Numbers are
      integers here; arrays and objects are known by their size only. */
  datatype Value = Undefined | Null | Bool(b: bool) | Num(n: int) | Str(s: string)
                 | Arr(length: nat) | Obj(keyCount: nat)

  /** JavaScript truthiness: `undefined`, `null`, `false`, `0` and `""` are
      falsy; every array and object is truthy. */
  predicate IsTruthy(v: Value)
  {
    match v
    case Undefined => false
    case Null => false
    case Bool(b) => b
    case Num(n) => n != 0
    case Str(s) => s != ""
    case Arr(_) => true
    case Obj(_) => true
  }

  /** The longest prefix of `s` made of characters satisfying `ok`. */
  function PrefixWhile(s: string, ok: char -> bool): (r: string)
    ensures |r| <= |s| && r == s[..|r|]
    ensures forall i :: 0 <= i < |r| ==> ok(r[i])
    ensures |r| < |s| ==> !ok(s[|r|])
  {
    if s == [] || !ok(s[0]) then [] else [s[0]] + PrefixWhile(s[1..], ok)
  }

  predicate IsHexDigit(c: char)
  {
    IsDigit(c) || 'a' <= c <= 'f' || 'A' <= c <= 'F'
  }

  function HexDigitValue(c: char): (r: nat)
    requires IsHexDigit(c)
    ensures r < 16
  {
    if IsDigit(c) then c as int - '0' as int
    else if 'a' <= c <= 'f' then c as int - 'a' as int + 10
    else c as int - 'A' as int + 10
  }

  /** The number a run of digits in base `radix` denotes. */
  function DigitsValue(ds: string, radix: nat): nat
    requires radix == 10 || radix == 16
    requires forall i :: 0 <= i < |ds| ==> IsHexDigit(ds[i])
  {
    if ds == [] then 0
    else DigitsValue(ds[..|ds| - 1], radix) * radix + HexDigitValue(ds[|ds| - 1])
  }

  /** `parseInt(s)` without a radix, `None` standing for `NaN`: leading
      whitespace is skipped, one sign is read, a `0x`/`0X` prefix switches to
      base 16, and the longest run of digits that follows is read; no digit
      at all gives `NaN`. */
  function ParseInt(s: string): (r: Option<int>)
    ensures r.Some? ==> exists k | 0 <= k < |s| :: IsHexDigit(s[k])
  {
    var t := TrimStart(Browser, s);
    TrimStartShape(Browser, s);
    var negative := t != [] && t[0] == '-';
    var u := if t != [] && (t[0] == '-' || t[0] == '+') then t[1..] else t;
    var hex := |u| >= 2 && u[0] == '0' && (u[1] == 'x' || u[1] == 'X');
    var ds := if hex then PrefixWhile(u[2..], IsHexDigit) else PrefixWhile(u, IsDigit);
    if ds == [] then None
    else
      assert ds[0] in s;
      var v: int := DigitsValue(ds, if hex then 16 else 10);
      Some(if negative then -v else v)
  }

  lemma {:induction false} DigitsValueOfNat(n: nat)
    ensures DigitsValue(NatToString(n), 10) == n
  {
    var s := NatToString(n);
    if n >= 10 {
      DigitsValueOfNat(n / 10);
      assert s[..|s| - 1] == NatToString(n / 10);
    }
  }

  lemma {:induction false} PrefixWhileAll(s: string, ok: char -> bool)
    requires forall i :: 0 <= i < |s| ==> ok(s[i])
    ensures PrefixWhile(s, ok) == s
  {
    if s != [] {
      PrefixWhileAll(s[1..], ok);
    }
  }

  /** `parseInt(String(n)) == n` for every natural number. */
  lemma ParseIntOfNat(n: nat)
    ensures ParseInt(NatToString(n)) == Some(n)
  {
    var s := NatToString(n);
    assert IsDigit(s[0]) && !IsSpace(Browser, s[0]);
    assert TrimStart(Browser, s) == s;
    assert |s| >= 2 ==> IsDigit(s[1]);
    PrefixWhileAll(s, IsDigit);
    DigitsValueOfNat(n);
  }
}

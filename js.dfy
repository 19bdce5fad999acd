/**
 * The few pieces of JavaScript semantics the storefront relies on:
 * `undefined` as an `Option`, numbers restricted to integers and NaN,
 * `Number.prototype.toString` and `Number.parseInt(_, 10)`, the
 * white-space class shared by `\s`, `trim()` and `parseInt`, and the part
 * of `toLowerCase()` that can survive slug generation.
 */
module Js {

  datatype Option<+T> = None | Some(value: T)

  /** A JavaScript number as it occurs in this code base: an integer or NaN. */
  datatype Number = Int(n: int) | NaN

  /** JavaScript `===` on numbers: NaN is unequal to everything, itself included. */
  predicate StrictEquals(a: Number, b: Number)
  {
    a.Int? && b.Int? && a.n == b.n
  }

  /** Truthiness of a number: 0 and NaN are falsy. */
  predicate NumberTruthy(x: Number)
  {
    x.Int? && x.n != 0
  }

  /** Truthiness of a possibly undefined string: `undefined` and "" are falsy. */
  predicate StringTruthy(s: Option<string>)
  {
    s.Some? && s.value != ""
  }

  /** `a || b` where `a` is a possibly undefined string and `b` a string. */
  function OrElse(a: Option<string>, b: string): (r: string)
    ensures StringTruthy(a) ==> r == a.value
    ensures !StringTruthy(a) ==> r == b
  {
    if StringTruthy(a) then a.value else b
  }

  // ---------------------------------------------------------------------
  // Characters

  /** `WhiteSpace` and `LineTerminator` of ECMAScript: what `\s`, `trim()` and `parseInt` skip. */
  predicate IsWhitespace(c: char)
  {
    c == '\t' || c == '\n' || c == '\U{B}' || c == '\U{C}' || c == '\r' || c == ' ' ||
    c == '\U{A0}' || c == '\U{1680}' || ('\U{2000}' <= c <= '\U{200A}') ||
    c == '\U{2028}' || c == '\U{2029}' || c == '\U{202F}' || c == '\U{205F}' ||
    c == '\U{3000}' || c == '\U{FEFF}'
  }

  predicate IsDigit(c: char)
  {
    '0' <= c <= '9'
  }

  /** The regular-expression class `\w`: ASCII letters, digits and `_`. */
  predicate IsWordChar(c: char)
  {
    'a' <= c <= 'z' || 'A' <= c <= 'Z' || IsDigit(c) || c == '_'
  }

  function DigitValue(c: char): (d: nat)
    requires IsDigit(c)
    ensures d < 10
  {
    (c as int) - ('0' as int)
  }

  function DigitChar(d: nat): (c: char)
    requires d < 10
    ensures IsDigit(c) && DigitValue(c) == d
  {
    (('0' as int) + d) as char
  }

  /**
   * `toLowerCase()` of one character, as far as it can matter once every
   * non-`\w` character is stripped: ASCII capitals, and the two code points
   * whose lower case contains an ASCII letter (KELVIN SIGN becomes `k`,
   * LATIN CAPITAL I WITH DOT ABOVE becomes `i` followed by COMBINING DOT ABOVE).
   */
  function LowerChar(c: char): (r: string)
    ensures |r| >= 1
  {
    if 'A' <= c <= 'Z' then [((c as int) + 32) as char]
    else if c == '\U{212A}' then "k"
    else if c == '\U{130}' then "i\U{307}"
    else [c]
  }

  function ToLowerCase(s: string): (r: string)
    ensures |r| >= |s|
  {
    if s == [] then [] else LowerChar(s[0]) + ToLowerCase(s[1..])
  }

  /** Lower-casing works character by character, so it distributes over concatenation. */
  lemma {:induction false} ToLowerAppend(a: string, b: string)
    ensures ToLowerCase(a + b) == ToLowerCase(a) + ToLowerCase(b)
  {
    if a == [] {
      assert a + b == b;
    } else {
      assert (a + b)[1..] == a[1..] + b;
      ToLowerAppend(a[1..], b);
    }
  }

  // ---------------------------------------------------------------------
  // trim()

  function TrimStart(s: string): (r: string)
    ensures |r| <= |s| && r == s[|s| - |r|..]
  {
    if s != [] && IsWhitespace(s[0]) then TrimStart(s[1..]) else s
  }

  function TrimEnd(s: string): (r: string)
  {
    if s != [] && IsWhitespace(s[|s| - 1]) then TrimEnd(s[..|s| - 1]) else s
  }

  /** `String.prototype.trim`. */
  function Trim(s: string): string
  {
    TrimEnd(TrimStart(s))
  }

  lemma {:induction false} TrimStartShape(s: string)
    ensures TrimStart(s) == [] <==> forall i :: 0 <= i < |s| ==> IsWhitespace(s[i])
    ensures TrimStart(s) != [] ==> !IsWhitespace(TrimStart(s)[0])
  {
    if s != [] && IsWhitespace(s[0]) {
      TrimStartShape(s[1..]);
      assert forall i :: 1 <= i < |s| ==> s[i] == s[1..][i - 1];
    }
  }

  lemma {:induction false} TrimEndKeepsNonEmpty(s: string)
    requires s != [] && !IsWhitespace(s[0])
    ensures TrimEnd(s) != []
  {
    if IsWhitespace(s[|s| - 1]) {
      TrimEndKeepsNonEmpty(s[..|s| - 1]);
    }
  }

  /** `!s.trim()` holds exactly when `s` is empty or made only of white space. */
  lemma TrimBlank(s: string)
    ensures Trim(s) == "" <==> forall i :: 0 <= i < |s| ==> IsWhitespace(s[i])
  {
    TrimStartShape(s);
    if TrimStart(s) != [] {
      TrimEndKeepsNonEmpty(TrimStart(s));
    }
  }

  // ---------------------------------------------------------------------
  // Number.prototype.toString() and Number.parseInt(_, 10)

  /** Decimal digits of a natural number, most significant first, without leading zeros. */
  function Digits(n: nat): (r: string)
    ensures |r| >= 1
    ensures forall i :: 0 <= i < |r| ==> IsDigit(r[i])
    decreases n
  {
    if n < 10 then [DigitChar(n)] else Digits(n / 10) + [DigitChar(n % 10)]
  }

  /** Value of a string of decimal digits, read left to right. */
  function DigitsValue(z: string): nat
    requires forall i :: 0 <= i < |z| ==> IsDigit(z[i])
  {
    if z == [] then 0 else DigitsValue(z[..|z| - 1]) * 10 + DigitValue(z[|z| - 1])
  }

  /** The longest prefix of `s` made of decimal digits. */
  function DigitPrefix(s: string): (z: string)
    ensures z <= s
    ensures forall i :: 0 <= i < |z| ==> IsDigit(z[i])
    ensures |z| < |s| ==> !IsDigit(s[|z|])
  {
    if s != [] && IsDigit(s[0]) then [s[0]] + DigitPrefix(s[1..]) else []
  }

  /** `String(x)` for the numbers of this model. */
  function NumberToString(x: Number): string
  {
    match x
    case NaN => "NaN"
    case Int(n) => if n < 0 then "-" + Digits(-n) else Digits(n)
  }

  /**
   * `Number.parseInt(s, 10)`: skip leading white space, take an optional sign,
   * read the longest run of decimal digits; NaN when there is none.
   */
  function ParseInt(s: string): (r: Number)
    ensures r.NaN? <==> DigitPrefix(SignStripped(TrimStart(s))) == []
  {
    var t := TrimStart(s);
    var z := DigitPrefix(SignStripped(t));
    if z == [] then NaN
    else if t[0] == '-' then Int(-(DigitsValue(z) as int))
    else Int(DigitsValue(z))
  }

  function SignStripped(t: string): string
  {
    if t != [] && (t[0] == '-' || t[0] == '+') then t[1..] else t
  }

  lemma {:induction false} DigitsValueOfDigits(n: nat)
    ensures DigitsValue(Digits(n)) == n
    decreases n
  {
    var d := Digits(n);
    if n >= 10 {
      DigitsValueOfDigits(n / 10);
      assert d[..|d| - 1] == Digits(n / 10);
    }
  }

  lemma {:induction false} DigitPrefixOfDigits(z: string)
    requires forall i :: 0 <= i < |z| ==> IsDigit(z[i])
    ensures DigitPrefix(z) == z
  {
    if z != [] {
      DigitPrefixOfDigits(z[1..]);
    }
  }

  /** `parseInt(String(x), 10)` gives back `x`, NaN included. */
  lemma ParseIntOfToString(x: Number)
    ensures ParseInt(NumberToString(x)) == x
  {
    var s := NumberToString(x);
    assert s != [] && !IsWhitespace(s[0]);
    assert TrimStart(s) == s;
    match x
    case NaN =>
      assert DigitPrefix(SignStripped(s)) == [];
    case Int(n) =>
      var d := if n < 0 then Digits(-n) else Digits(n);
      assert SignStripped(s) == d;
      DigitPrefixOfDigits(d);
      DigitsValueOfDigits(if n < 0 then -n else n);
  }

  /** An empty form field parses to NaN. */
  lemma ParseIntEmpty()
    ensures ParseInt("") == NaN
  {
  }
}

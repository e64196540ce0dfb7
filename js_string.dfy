/**
 * The few JavaScript string operations the application relies on, with the
 * semantics of the ECMAScript built-ins: `Number.prototype.toString()` on a
 * non-negative integer below 10^21 (every `Date.now()` value), `slice`,
 * `substring`, `toUpperCase` (on the ASCII letters the base-36 alphabet
 * uses) and `trim`.
 */
module JsString {
  import opened Wrappers

  predicate IsDigit(c: char) { '0' <= c <= '9' }

  predicate IsLowerAscii(c: char) { 'a' <= c <= 'z' }

  predicate IsUpperAscii(c: char) { 'A' <= c <= 'Z' }

  /** A digit of `Number.prototype.toString(36)`: `0`-`9` then `a`-`z`. */
  predicate IsBase36Digit(c: char) { IsDigit(c) || IsLowerAscii(c) }

  /** JavaScript truthiness of an optional string: neither `undefined` nor `""`. */
  predicate IsSet(v: Option<string>) { v.Some? && v.value != "" }

  function DigitChar(d: nat): (c: char)
    requires d < 10
    ensures IsDigit(c) && c as int - '0' as int == d
  {
    ('0' as int + d) as char
  }

  /** `n.toString()` for a non-negative integer below 10^21: its shortest decimal numeral. */
  function DecimalString(n: nat): (s: string)
    ensures |s| >= 1
    ensures forall i :: 0 <= i < |s| ==> IsDigit(s[i])
    ensures s[0] == '0' ==> n == 0
    decreases n
  {
    if n < 10 then [DigitChar(n)] else DecimalString(n / 10) + [DigitChar(n % 10)]
  }

  /** The number a string of decimal digits denotes (the reference reading of a numeral). */
  function DigitsValue(s: string): nat
    requires forall i :: 0 <= i < |s| ==> IsDigit(s[i])
  {
    if s == [] then 0
    else
      var last := s[|s| - 1];
      assert IsDigit(last);
      DigitsValue(s[..|s| - 1]) * 10 + (last as int - '0' as int)
  }

  /** Reading the numeral back gives the number: `toString` loses nothing. */
  lemma {:induction false} DecimalStringRoundTrip(n: nat)
    ensures DigitsValue(DecimalString(n)) == n
    decreases n
  {
    var s := DecimalString(n);
    if n < 10 {
      assert s[..|s| - 1] == [];
    } else {
      DecimalStringRoundTrip(n / 10);
      assert s[..|s| - 1] == DecimalString(n / 10);
    }
  }

  /** The run of decimal digits a string starts with, as a reader scanning a numeral stops at the first non-digit. */
  function LeadingDigits(s: string): (d: string)
    ensures d <= s
    ensures forall i :: 0 <= i < |d| ==> IsDigit(d[i])
    ensures |d| < |s| ==> !IsDigit(s[|d|])
  {
    if s == [] || !IsDigit(s[0]) then [] else [s[0]] + LeadingDigits(s[1..])
  }

  /** A digit run followed by a non-digit (or nothing) is read off exactly. */
  lemma {:induction false} LeadingDigitsOf(digits: string, rest: string)
    requires forall i :: 0 <= i < |digits| ==> IsDigit(digits[i])
    requires rest == [] || !IsDigit(rest[0])
    ensures LeadingDigits(digits + rest) == digits
  {
    if digits != [] {
      assert (digits + rest)[0] == digits[0];
      assert (digits + rest)[1..] == digits[1..] + rest;
      LeadingDigitsOf(digits[1..], rest);
    } else {
      assert digits + rest == rest;
    }
  }

  function Pow10(k: nat): (p: nat)
    ensures p >= 1
  {
    if k == 0 then 1 else 10 * Pow10(k - 1)
  }

  /** The numeral of n has more than k digits exactly when n >= 10^k (for k > 0). */
  lemma {:induction false} DecimalStringLength(n: nat, k: nat)
    ensures n >= Pow10(k) ==> |DecimalString(n)| > k
    ensures n < Pow10(k) && k > 0 ==> |DecimalString(n)| <= k
    decreases n
  {
    if n >= 10 && k > 0 {
      DecimalStringLength(n / 10, k - 1);
    }
  }

  /** A millisecond timestamp prints with at least six digits exactly when it is at least 100000. */
  lemma SixDigitNumeral(n: nat)
    ensures |DecimalString(n)| >= 6 <==> n >= 100000
  {
    assert Pow10(5) == 100000;
    DecimalStringLength(n, 5);
  }

  /** Clamps a position into [0, len], as `slice` and `substring` do with their arguments. */
  function Clamp(i: int, len: nat): (r: nat)
    ensures r <= len
    ensures 0 <= i <= len ==> r == i
  {
    if i < 0 then 0 else if i > len then len else i
  }

  /**
   * `s.slice(start)`: a negative start counts from the end. `slice(-6)`
   * keeps the last six characters, or all of a shorter string.
   */
  function SliceFrom(s: string, start: int): (r: string)
    ensures start < 0 ==> |r| == (if |s| < -start then |s| else -start)
    ensures |r| <= |s| && r == s[|s| - |r|..]
  {
    var from := if start < 0 then Clamp(|s| + start, |s|) else Clamp(start, |s|);
    s[from..]
  }

  /**
   * `s.substring(start, end)`: both positions are clamped into [0, |s|]
   * and swapped when the first is the larger.
   */
  function Substring(s: string, start: int, end: int): (r: string)
    ensures 0 <= start <= end ==> |r| == Clamp(end, |s|) - Clamp(start, |s|)
    ensures 0 <= start <= end ==> forall i :: 0 <= i < |r| ==> r[i] == s[Clamp(start, |s|) + i]
  {
    var a, b := Clamp(start, |s|), Clamp(end, |s|);
    if a <= b then s[a..b] else s[b..a]
  }

  function UpperChar(c: char): (u: char)
    ensures !IsLowerAscii(u)
    ensures IsLowerAscii(c) ==> IsUpperAscii(u)
    ensures !IsLowerAscii(c) ==> u == c
  {
    if IsLowerAscii(c) then (c as int - 32) as char else c
  }

  /** `s.toUpperCase()` on the ASCII letters; every other character is kept. */
  function ToUpperCase(s: string): (r: string)
    ensures |r| == |s|
    ensures forall i :: 0 <= i < |r| ==> r[i] == UpperChar(s[i])
  {
    if s == [] then [] else [UpperChar(s[0])] + ToUpperCase(s[1..])
  }

  /** The characters `trim` removes: WhiteSpace and LineTerminator of ECMAScript. */
  predicate IsWhiteSpace(c: char)
  {
    || c == '\t' || c == '\n' || c == '\U{000B}' || c == '\U{000C}' || c == '\r' || c == ' '
    || c == '\U{00A0}' || c == '\U{1680}' || ('\U{2000}' <= c <= '\U{200A}')
    || c == '\U{2028}' || c == '\U{2029}' || c == '\U{202F}' || c == '\U{205F}'
    || c == '\U{3000}' || c == '\U{FEFF}'
  }

  predicate AllWhiteSpace(s: string)
  {
    forall i :: 0 <= i < |s| ==> IsWhiteSpace(s[i])
  }

  /** Drops leading white space. */
  function TrimStart(s: string): string
  {
    if s != [] && IsWhiteSpace(s[0]) then TrimStart(s[1..]) else s
  }

  /** Drops trailing white space. */
  function TrimEnd(s: string): string
  {
    if s != [] && IsWhiteSpace(s[|s| - 1]) then TrimEnd(s[..|s| - 1]) else s
  }

  /** What `TrimStart` drops is all white space; what it keeps is a suffix not starting with any. */
  lemma {:induction false} TrimStartFacts(s: string)
    ensures var r := TrimStart(s);
      |r| <= |s| && r == s[|s| - |r|..] && AllWhiteSpace(s[..|s| - |r|]) &&
      (r == [] || !IsWhiteSpace(r[0]))
  {
    if s != [] && IsWhiteSpace(s[0]) {
      TrimStartFacts(s[1..]);
      var r := TrimStart(s[1..]);
      assert s[..|s| - |r|] == [s[0]] + s[1..][..|s| - 1 - |r|];
    }
  }

  /** What `TrimEnd` drops is all white space; what it keeps is a prefix not ending with any. */
  lemma {:induction false} TrimEndFacts(s: string)
    ensures var r := TrimEnd(s);
      |r| <= |s| && r == s[..|r|] && AllWhiteSpace(s[|r|..]) &&
      (r == [] || !IsWhiteSpace(r[|r| - 1]))
  {
    if s != [] && IsWhiteSpace(s[|s| - 1]) {
      var p := s[..|s| - 1];
      TrimEndFacts(p);
      var r := TrimEnd(p);
      assert s[|r|..] == p[|r|..] + [s[|s| - 1]];
    }
  }

  /** `s.trim()`: never longer than `s`, and neither starting nor ending with white space. */
  function Trim(s: string): (r: string)
    ensures |r| <= |s|
    ensures r != [] ==> !IsWhiteSpace(r[0]) && !IsWhiteSpace(r[|r| - 1])
  {
    TrimStartFacts(s);
    TrimEndFacts(TrimStart(s));
    TrimEnd(TrimStart(s))
  }

  /**
   * `s.trim()` keeps a middle slice of `s`: what precedes it and what follows
   * it are all white space.
   */
  lemma TrimIsMiddleSlice(s: string)
    ensures |TrimStart(s)| <= |s|
    ensures var r, k := Trim(s), |s| - |TrimStart(s)|;
      k + |r| <= |s| && r == s[k..k + |r|] && AllWhiteSpace(s[..k]) && AllWhiteSpace(s[k + |r|..])
  {
    TrimStartFacts(s);
    var t := TrimStart(s);
    TrimEndFacts(t);
    var r, k := Trim(s), |s| - |t|;
    assert t == s[k..];
    assert s[k + |r|..] == t[|r|..];
  }

  /** `!s.trim()`: a string is blank exactly when every character of it is white space. */
  lemma TrimEmptyIff(s: string)
    ensures Trim(s) == [] <==> AllWhiteSpace(s)
  {
    TrimStartFacts(s);
    var t := TrimStart(s);
    TrimEndFacts(t);
  }
}

/**
 * The string primitives the application relies on, restricted to what the model needs:
 * ASCII case mapping, stripping characters from both ends (`trim`, the slash-trimming
 * regular expression), decimal formatting of naturals, `padStart`, and the code-unit
 * order JavaScript uses for `<` and `>=` on strings.
 */
module Strings {

  /** The characters `String.prototype.trim` removes and the regular-expression class `\s`
      matches: the WhiteSpace and LineTerminator code points of ECMAScript. */
  predicate IsJsWhitespace(c: char) {
    || c == '\t' || c == '\n' || c == '\U{0B}' || c == '\U{0C}' || c == '\r' || c == ' '
    || c == '\U{A0}' || c == '\U{1680}' || ('\U{2000}' <= c <= '\U{200A}')
    || c == '\U{2028}' || c == '\U{2029}' || c == '\U{202F}' || c == '\U{205F}'
    || c == '\U{3000}' || c == '\U{FEFF}'
  }

  const JsWhitespace: set<char> := set c: char | IsJsWhitespace(c)

  // ---------------------------------------------------------------- case mapping

  predicate IsAsciiUpper(c: char) { 'A' <= c <= 'Z' }

  predicate IsAsciiLower(c: char) { 'a' <= c <= 'z' }

  const SmallLetters := "abcdefghijklmnopqrstuvwxyz"
  const CapitalLetters := "ABCDEFGHIJKLMNOPQRSTUVWXYZ"

  /** ASCII lower-casing of one character: a capital becomes the small letter at the same
      place in the alphabet; every other character is kept. */
  function LowerChar(c: char): (d: char)
    ensures IsAsciiUpper(c) ==> d == SmallLetters[c as int - 'A' as int]
    ensures !IsAsciiUpper(d)
    ensures d in JsWhitespace <==> c in JsWhitespace
    ensures !IsAsciiUpper(c) ==> d == c
  {
    if IsAsciiUpper(c) then (c as int + 32) as char else c
  }

  /** ASCII upper-casing of one character: a small letter becomes the capital at the same
      place in the alphabet; every other character is kept. */
  function UpperChar(c: char): (d: char)
    ensures IsAsciiLower(c) ==> d == CapitalLetters[c as int - 'a' as int]
    ensures !IsAsciiLower(d)
    ensures !IsAsciiLower(c) ==> d == c
  {
    if IsAsciiLower(c) then (c as int - 32) as char else c
  }

  /** `toLowerCase` over ASCII. */
  function Lower(s: string): (r: string)
    ensures |r| == |s|
    ensures forall i :: 0 <= i < |s| ==> r[i] == LowerChar(s[i])
  {
    seq(|s|, i requires 0 <= i < |s| => LowerChar(s[i]))
  }

  /** `toUpperCase` over ASCII. */
  function Upper(s: string): (r: string)
    ensures |r| == |s|
    ensures forall i :: 0 <= i < |s| ==> r[i] == UpperChar(s[i])
  {
    seq(|s|, i requires 0 <= i < |s| => UpperChar(s[i]))
  }

  /** Two strings that differ at most in the case of ASCII letters. */
  predicate EqualsIgnoreCase(a: string, b: string) {
    |a| == |b| && forall i :: 0 <= i < |a| ==> UpperChar(a[i]) == UpperChar(b[i])
  }

  /** Comparing upper-cased strings is comparing them without regard to case. */
  lemma UpperEqualIff(a: string, b: string)
    ensures Upper(a) == Upper(b) <==> EqualsIgnoreCase(a, b)
  {
    if EqualsIgnoreCase(a, b) {
      assert forall i :: 0 <= i < |a| ==> Upper(a)[i] == Upper(b)[i];
    }
    if Upper(a) == Upper(b) {
      assert forall i :: 0 <= i < |a| ==> Upper(a)[i] == Upper(b)[i];
    }
  }

  /** A string without upper-case ASCII letters is its own lower-case form. */
  lemma LowerOfLower(s: string)
    requires forall i :: 0 <= i < |s| ==> !IsAsciiUpper(s[i])
    ensures Lower(s) == s
  {
  }

  // ---------------------------------------------------------------- stripping both ends

  /** How many leading characters of `s` are in `cs`: the index where stripping from the
      left stops. */
  function LeadingCount(s: string, cs: set<char>): (n: nat)
    ensures n <= |s|
    ensures forall k :: 0 <= k < n ==> s[k] in cs
    ensures n < |s| ==> s[n] !in cs
  {
    if |s| > 0 && s[0] in cs then 1 + LeadingCount(s[1..], cs) else 0
  }

  /** The length of `s` once its trailing characters from `cs` are dropped: the index where
      stripping from the right stops. */
  function TrailingStop(s: string, cs: set<char>): (n: nat)
    ensures n <= |s|
    ensures forall k :: n <= k < |s| ==> s[k] in cs
    ensures n > 0 ==> s[n - 1] !in cs
  {
    if |s| > 0 && s[|s| - 1] in cs then TrailingStop(s[..|s| - 1], cs) else |s|
  }

  /** `r` is the middle of `s` that starts where the leading run of `cs` ends, with only
      characters from `cs` after it. */
  predicate IsStripped(r: string, s: string, cs: set<char>) {
    var i := LeadingCount(s, cs);
    && i + |r| <= |s| && r == s[i..i + |r|]
    && (forall k :: 0 <= k < i ==> s[k] in cs)
    && (forall k :: i + |r| <= k < |s| ==> s[k] in cs)
  }

  /** `s` with every leading and every trailing character from `cs` removed, and nothing else:
      the result is the contiguous middle of `s` that starts where the leading run ends, and
      it is flanked only by characters from `cs`. */
  function Strip(s: string, cs: set<char>): (r: string)
    ensures |r| <= |s|
    ensures r == [] || (r[0] !in cs && r[|r| - 1] !in cs)
    ensures IsStripped(r, s, cs)
  {
    var i := LeadingCount(s, cs);
    var j := TrailingStop(s[i..], cs);
    SuffixTail(s, i, j, cs);
    s[i..i + j]
  }

  /** What follows position `j` of the suffix `s[i..]` follows position `i + j` of `s`. */
  lemma SuffixTail(s: string, i: nat, j: nat, cs: set<char>)
    requires i <= |s| && j <= |s| - i
    requires forall k :: j <= k < |s| - i ==> s[i..][k] in cs
    ensures s[i..][..j] == s[i..i + j]
    ensures j > 0 ==> s[i..][j - 1] == s[i + j - 1]
    ensures forall k :: i + j <= k < |s| ==> s[k] in cs
  {
    forall k | i + j <= k < |s| ensures s[k] in cs {
      assert s[k] == s[i..][k - i];
    }
  }

  /** Stripping leaves a string alone exactly when neither end is in `cs`. */
  lemma StripIsIdentity(s: string, cs: set<char>)
    ensures Strip(s, cs) == s <==> (s == [] || (s[0] !in cs && s[|s| - 1] !in cs))
  {
  }

  lemma StripIdempotent(s: string, cs: set<char>)
    ensures Strip(Strip(s, cs), cs) == Strip(s, cs)
  {
    StripIsIdentity(Strip(s, cs), cs);
  }

  /** JavaScript's `trim`: the middle of `s` that starts after its leading white space, with
      only white space after it and neither end white space. */
  function Trim(s: string): (r: string)
    ensures r == [] || (r[0] !in JsWhitespace && r[|r| - 1] !in JsWhitespace)
    ensures IsStripped(r, s, JsWhitespace)
  {
    Strip(s, JsWhitespace)
  }

  // ---------------------------------------------------------------- decimal digits

  predicate IsDigit(c: char) { '0' <= c <= '9' }

  predicate AllDigits(s: string) {
    forall i :: 0 <= i < |s| ==> IsDigit(s[i])
  }

  function DigitChar(d: nat): (c: char)
    requires d < 10
    ensures IsDigit(c)
  {
    ('0' as int + d) as char
  }

  function DigitValue(c: char): (d: nat)
    requires IsDigit(c)
    ensures d < 10
  {
    c as int - '0' as int
  }

  /** `String(n)` for a natural number: its decimal digits without leading zeros. */
  function Decimal(n: nat): (r: string)
    ensures |r| >= 1 && AllDigits(r)
    ensures r[0] == '0' <==> n == 0
    ensures |r| == 1 <==> n < 10
  {
    if n < 10 then [DigitChar(n)] else Decimal(n / 10) + [DigitChar(n % 10)]
  }

  /** The number a string of decimal digits denotes. */
  function DigitsValue(s: string): nat
    requires AllDigits(s)
  {
    if s == [] then 0 else DigitsValue(s[..|s| - 1]) * 10 + DigitValue(s[|s| - 1])
  }

  lemma {:induction false} DecimalRoundTrip(n: nat)
    ensures DigitsValue(Decimal(n)) == n
  {
    if n >= 10 {
      var d := Decimal(n);
      assert d[..|d| - 1] == Decimal(n / 10);
      DecimalRoundTrip(n / 10);
    }
  }

  /** Different numbers have different decimal forms. */
  lemma DecimalInjective(m: nat, n: nat)
    ensures Decimal(m) == Decimal(n) <==> m == n
  {
    DecimalRoundTrip(m);
    DecimalRoundTrip(n);
  }

  /** Four-digit numbers have four-character decimal forms. */
  lemma DecimalOfFourDigits(n: nat)
    requires 1000 <= n < 10000
    ensures |Decimal(n)| == 4
  {
    assert |Decimal(n / 10)| == 3 by {
      assert |Decimal(n / 100)| == 2;
    }
  }

  /** A leading zero does not change the value of a digit string. */
  lemma {:induction false} LeadingZero(s: string)
    requires AllDigits(s)
    ensures AllDigits("0" + s) && DigitsValue("0" + s) == DigitsValue(s)
  {
    if s != [] {
      assert ("0" + s)[..|s|] == "0" + s[..|s| - 1];
      LeadingZero(s[..|s| - 1]);
    }
  }

  function Pow10(k: nat): (p: nat)
    ensures p >= 1
  {
    if k == 0 then 1 else 10 * Pow10(k - 1)
  }

  /** Reading a digit string from the left: the first digit weighs 10 to the number of digits after it. */
  lemma {:induction false} DigitsValueFromLeft(s: string)
    requires AllDigits(s) && |s| > 0
    ensures DigitsValue(s) == DigitValue(s[0]) * Pow10(|s| - 1) + DigitsValue(s[1..])
  {
    if |s| > 1 {
      var init, tail := s[..|s| - 1], s[1..];
      assert init[0] == s[0] && tail[|tail| - 1] == s[|s| - 1];
      assert init[1..] == tail[..|tail| - 1];
      DigitsValueFromLeft(init);
      Regroup(DigitValue(s[0]), Pow10(|s| - 2), DigitsValue(init[1..]), DigitValue(s[|s| - 1]));
    }
  }

  lemma Regroup(d0: nat, p: nat, m: nat, dl: nat)
    ensures (d0 * p + m) * 10 + dl == d0 * (10 * p) + (m * 10 + dl)
  {
  }

  lemma {:induction false} DigitsValueBound(s: string)
    requires AllDigits(s)
    ensures DigitsValue(s) < Pow10(|s|)
  {
    if s != [] {
      DigitsValueBound(s[..|s| - 1]);
    }
  }

  // ---------------------------------------------------------------- padStart

  /** `s.padStart(width, fill)` for a one-character fill string. */
  function PadStart(s: string, width: nat, fill: char): (r: string)
    ensures |r| == if |s| >= width then |s| else width
    ensures r[|r| - |s|..] == s
    ensures forall k :: 0 <= k < |r| - |s| ==> r[k] == fill
    decreases width - |s|
  {
    if |s| >= width then s else PadStart([fill] + s, width, fill)
  }

  // ---------------------------------------------------------------- string order

  /** JavaScript's `a < b` on strings: lexicographic order of characters, a proper prefix first. */
  predicate LexLess(a: string, b: string) {
    if a == [] then b != []
    else if b == [] then false
    else if a[0] != b[0] then a[0] < b[0]
    else LexLess(a[1..], b[1..])
  }

  lemma {:induction false} LexLessIrreflexive(a: string)
    ensures !LexLess(a, a)
  {
    if a != [] {
      LexLessIrreflexive(a[1..]);
    }
  }

  /** Of two different strings, one is below the other. */
  lemma {:induction false} LexLessTotal(a: string, b: string)
    requires a != b
    ensures LexLess(a, b) || LexLess(b, a)
  {
    if a != [] && b != [] && a[0] == b[0] {
      assert a == [a[0]] + a[1..] && b == [b[0]] + b[1..];
      LexLessTotal(a[1..], b[1..]);
    }
  }

  lemma {:induction false} LexLessAsymmetric(a: string, b: string)
    requires LexLess(a, b)
    ensures !LexLess(b, a)
  {
    if a != [] && b != [] && a[0] == b[0] {
      LexLessAsymmetric(a[1..], b[1..]);
    }
  }

  /** Comparing concatenations whose first parts have equal lengths: the first parts decide,
      and only when they are equal do the second parts. */
  lemma {:induction false} LexLessConcat(x1: string, y1: string, x2: string, y2: string)
    requires |x1| == |x2|
    ensures LexLess(x1 + y1, x2 + y2) == if x1 == x2 then LexLess(y1, y2) else LexLess(x1, x2)
  {
    if x1 != [] {
      assert (x1 + y1)[1..] == x1[1..] + y1;
      assert (x2 + y2)[1..] == x2[1..] + y2;
      if x1[0] == x2[0] {
        assert x1 == [x1[0]] + x1[1..] && x2 == [x2[0]] + x2[1..];
        LexLessConcat(x1[1..], y1, x2[1..], y2);
      }
    } else {
      assert x1 + y1 == y1 && x2 + y2 == y2;
    }
  }

  /** A higher leading digit outweighs whatever follows it. */
  lemma HigherDigitWins(lo: nat, hi: nat, p: nat, restLo: nat, restHi: nat)
    requires lo < hi && restLo < p
    ensures lo * p + restLo < hi * p + restHi
  {
    var d := hi - lo - 1;
    assert hi * p == lo * p + p + d * p;
    assert d * p >= 0;
  }

  /** On digit strings of equal length, string order is numeric order. */
  lemma {:induction false} LexLessDigits(a: string, b: string)
    requires AllDigits(a) && AllDigits(b) && |a| == |b|
    ensures LexLess(a, b) <==> DigitsValue(a) < DigitsValue(b)
  {
    if a != [] {
      DigitsValueFromLeft(a);
      DigitsValueFromLeft(b);
      var p := Pow10(|a| - 1);
      if a[0] == b[0] {
        LexLessDigits(a[1..], b[1..]);
      } else {
        DigitsValueBound(a[1..]);
        DigitsValueBound(b[1..]);
        var da, db := DigitValue(a[0]), DigitValue(b[0]);
        if da < db {
          HigherDigitWins(da, db, p, DigitsValue(a[1..]), DigitsValue(b[1..]));
        } else {
          HigherDigitWins(db, da, p, DigitsValue(b[1..]), DigitsValue(a[1..]));
        }
      }
    }
  }
}

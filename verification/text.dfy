/** Character-level helpers shared by the mapping engine: ASCII decimal
    digits (Python's `int(...)`, `str(...)` and strftime's zero-padded
    fields), ASCII case mapping (`str.lower`, `str.upper`) and joining
    fields with a delimiter (the f-strings fed to the key hash). */
module Text {

  // ---------------------------------------------------------------- digits

  predicate IsDigit(c: char) {
    '0' <= c <= '9'
  }

  predicate AllDigits(s: string) {
    forall i :: 0 <= i < |s| ==> IsDigit(s[i])
  }

  function DigitValue(c: char): nat
    requires IsDigit(c)
  {
    c as int - '0' as int
  }

  function DigitChar(d: nat): (c: char)
    requires d < 10
    ensures IsDigit(c) && DigitValue(c) == d
  {
    ('0' as int + d) as char
  }

  function Pow10(n: nat): (r: nat)
    ensures r >= 1
  {
    if n == 0 then 1 else 10 * Pow10(n - 1)
  }

  /** The number a string of decimal digits denotes, most significant
      digit first; leading zeros are allowed (Python's `int(s)`). */
  function Value(s: string): (r: nat)
    requires AllDigits(s)
    ensures r < Pow10(|s|)
  {
    if |s| == 0 then 0 else 10 * Value(s[..|s| - 1]) + DigitValue(s[|s| - 1])
  }

  /** `n` written with exactly `w` digits, zero-padded on the left, as
      strftime writes `%m`, `%d`, `%H`, ... */
  function Digits(n: nat, w: nat): (r: string)
    ensures |r| == w && AllDigits(r)
  {
    if w == 0 then "" else Digits(n / 10, w - 1) + [DigitChar(n % 10)]
  }

  /** `n` in decimal without leading zeros, as Python's `str(n)`. */
  function Decimal(n: nat): (r: string)
    ensures 1 <= |r| && AllDigits(r)
    ensures Value(r) == n
    ensures r[0] == '0' <==> n == 0
    ensures n == 0 ==> r == "0"
  {
    if n < 10 then [DigitChar(n)]
    else
      var p := Decimal(n / 10);
      var r := p + [DigitChar(n % 10)];
      assert r[..|r| - 1] == p;
      r
  }

  /** Zero-padded rendering is undone by reading the digits back. */
  lemma {:induction false} ValueOfDigits(n: nat, w: nat)
    requires n < Pow10(w)
    ensures Value(Digits(n, w)) == n
  {
    if w > 0 {
      var d := Digits(n / 10, w - 1);
      ValueOfDigits(n / 10, w - 1);
      assert Digits(n, w)[..w - 1] == d;
    }
  }

  /** Reading digits and re-rendering them at the same width gives the
      original string back, leading zeros included. */
  lemma {:induction false} DigitsOfValue(s: string)
    requires AllDigits(s)
    ensures Digits(Value(s), |s|) == s
  {
    if |s| > 0 {
      var p := s[..|s| - 1];
      DigitsOfValue(p);
      var v := Value(s);
      assert v / 10 == Value(p) && v % 10 == DigitValue(s[|s| - 1]);
      assert s == p + [s[|s| - 1]];
    }
  }

  /** The last two places of a zero-padded rendering. */
  lemma DigitsLastTwo(n: nat, w: nat)
    requires w >= 2
    ensures Digits(n, w) == Digits(n / 10 / 10, w - 2) + [DigitChar(n / 10 % 10), DigitChar(n % 10)]
  {
    assert Digits(n, w) == Digits(n / 10, w - 1) + [DigitChar(n % 10)];
    assert Digits(n / 10, w - 1) == Digits(n / 10 / 10, w - 2) + [DigitChar(n / 10 % 10)];
  }

  /** Equal-width renderings of in-range numbers are equal only for
      equal numbers. */
  lemma DigitsInjective(a: nat, b: nat, w: nat)
    requires a < Pow10(w) && b < Pow10(w)
    requires Digits(a, w) == Digits(b, w)
    ensures a == b
  {
    ValueOfDigits(a, w);
    ValueOfDigits(b, w);
  }

  /** `str(int(s)) == s` for a digit string without a leading zero. */
  lemma {:induction false} DecimalOfValue(s: string)
    requires AllDigits(s) && 1 <= |s| && s[0] != '0'
    ensures Decimal(Value(s)) == s
  {
    var p := s[..|s| - 1];
    var c := s[|s| - 1];
    assert s == p + [c];
    if |p| == 0 {
      assert Value(s) == DigitValue(c);
    } else {
      DecimalOfValue(p);
      var v := Value(s);
      assert v / 10 == Value(p) && v % 10 == DigitValue(c);
    }
  }

  // ------------------------------------------------------------ ASCII case

  function UpperChar(c: char): char {
    if 'a' <= c <= 'z' then (c as int - 32) as char else c
  }

  function LowerChar(c: char): char {
    if 'A' <= c <= 'Z' then (c as int + 32) as char else c
  }

  /** `s.upper()` restricted to ASCII letters. */
  function Upper(s: string): (r: string)
    ensures |r| == |s|
    ensures forall i :: 0 <= i < |s| ==> r[i] == UpperChar(s[i])
  {
    if |s| == 0 then "" else [UpperChar(s[0])] + Upper(s[1..])
  }

  /** `s.lower()` restricted to ASCII letters. */
  function Lower(s: string): (r: string)
    ensures |r| == |s|
    ensures forall i :: 0 <= i < |s| ==> r[i] == LowerChar(s[i])
  {
    if |s| == 0 then "" else [LowerChar(s[0])] + Lower(s[1..])
  }

  predicate IsLowerWord(w: string) {
    forall i :: 0 <= i < |w| ==> 'a' <= w[i] <= 'z'
  }

  /** `s` spells the lower-case word `w`, each letter in either case. */
  predicate SpellsIgnoringCase(s: string, w: string) {
    |s| == |w| && forall i :: 0 <= i < |s| ==> s[i] == w[i] || s[i] == UpperChar(w[i])
  }

  /** Lower-casing `s` yields the lower-case word `w` exactly when `s`
      spells `w` with any mix of upper- and lower-case letters. */
  lemma LowerMatchesWord(s: string, w: string)
    requires IsLowerWord(w)
    ensures Lower(s) == w <==> SpellsIgnoringCase(s, w)
  {
    if SpellsIgnoringCase(s, w) {
      assert forall i :: 0 <= i < |s| ==> Lower(s)[i] == w[i];
    }
    if Lower(s) == w {
      assert forall i :: 0 <= i < |s| ==> LowerChar(s[i]) == w[i];
    }
  }

  // ------------------------------------------------------------- joining

  /** The fields separated by `sep`, as the f-string
      `f"{a}{sep}{b}{sep}..."` builds them. */
  function Join(fields: seq<string>, sep: char): string
  {
    if |fields| == 0 then ""
    else if |fields| == 1 then fields[0]
    else fields[0] + [sep] + Join(fields[1..], sep)
  }
}

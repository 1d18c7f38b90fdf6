/** The two timestamp formats of the mapping engine: the raw input format
    `"%Y-%m-%d %H:%M:%S.%f"` read with `datetime.strptime`, and the
    canonical output format `"%Y-%m-%dT%H:%M:%S"` written with
    `datetime.strftime`. */
module Timestamp {
  import opened Wrappers
  import opened Text

  /** A `datetime` without time zone. */
  datatype DateTime = DateTime(
    year: nat, month: nat, day: nat,
    hour: nat, minute: nat, second: nat, micro: nat)

  predicate IsLeapYear(y: nat) {
    y % 4 == 0 && (y % 100 != 0 || y % 400 == 0)
  }

  function DaysInMonth(y: nat, m: nat): nat
    requires 1 <= m <= 12
  {
    if m == 2 then (if IsLeapYear(y) then 29 else 28)
    else if m == 4 || m == 6 || m == 9 || m == 11 then 30
    else 31
  }

  /** The values `datetime` accepts: years 1..9999, a day that exists in
      its month, no leap seconds. */
  predicate Valid(t: DateTime) {
    && 1 <= t.year <= 9999
    && 1 <= t.month <= 12
    && 1 <= t.day <= DaysInMonth(t.year, t.month)
    && t.hour < 24 && t.minute < 60 && t.second < 60
    && t.micro < 1000000
  }

  /** Digit runs of "YYYY-MM-DD?HH:MM:SS" at their fixed offsets. */
  predicate DigitFields(s: string) {
    && |s| >= 19
    && AllDigits(s[0..4]) && AllDigits(s[5..7]) && AllDigits(s[8..10])
    && AllDigits(s[11..13]) && AllDigits(s[14..16]) && AllDigits(s[17..19])
  }

  /** "YYYY-MM-DD?HH:MM:SS" with `sep` between date and time. */
  predicate HasLayout(s: string, sep: char) {
    && DigitFields(s)
    && s[4] == '-' && s[7] == '-' && s[10] == sep && s[13] == ':' && s[16] == ':'
  }

  const InputSeparator: char := ' '
  const CanonicalSeparator: char := 'T'
  const MaxFractionDigits: nat := 6

  /** The date and time read from the fixed-offset fields of `s`. */
  function FieldsOf(s: string, micro: nat): DateTime
    requires DigitFields(s)
  {
    DateTime(Value(s[0..4]), Value(s[5..7]), Value(s[8..10]),
             Value(s[11..13]), Value(s[14..16]), Value(s[17..19]), micro)
  }

  /** `%f`: the digits right-padded with zeros to six places. */
  function Micros(f: string): nat
    requires AllDigits(f) && |f| <= MaxFractionDigits
  {
    Value(f) * Pow10(MaxFractionDigits - |f|)
  }

  /** The raw input format is a "YYYY-MM-DD HH:MM:SS" head, a dot and one
      to six fraction digits, and nothing else. */
  predicate IsInputShape(s: string) {
    && 20 < |s| <= 20 + MaxFractionDigits
    && HasLayout(s, InputSeparator) && s[19] == '.' && AllDigits(s[20..])
  }

  /** `datetime.strptime(s, "%Y-%m-%d %H:%M:%S.%f")`; `None` where it
      raises `ValueError`. */
  function Parse(s: string): (r: Option<DateTime>)
    ensures r.Some? ==> IsInputShape(s) && Valid(r.value)
    ensures r.Some? ==> r.value.year == Value(s[0..4]) && r.value.micro == Micros(s[20..])
    ensures r.Some? ==> r.value == FieldsOf(s, Micros(s[20..]))
    ensures r.None? <==> !IsInputShape(s) || !Valid(FieldsOf(s, Micros(s[20..])))
  {
    if IsInputShape(s) then
      var t := FieldsOf(s, Micros(s[20..]));
      if Valid(t) then Some(t) else None
    else
      None
  }

  /** `%Y-%m-%d`. */
  function DateText(t: DateTime): (r: string)
    ensures |r| == 10
  {
    Digits(t.year, 4) + "-" + Digits(t.month, 2) + "-" + Digits(t.day, 2)
  }

  /** `%H:%M:%S`. */
  function TimeText(t: DateTime): (r: string)
    ensures |r| == 8
  {
    Digits(t.hour, 2) + ":" + Digits(t.minute, 2) + ":" + Digits(t.second, 2)
  }

  /** `datetime.strftime(t, "%Y-%m-%dT%H:%M:%S")`: the fraction is
      dropped, and reading the fields back gives every other part. */
  function Canonical(t: DateTime): (r: string)
    ensures |r| == 19
    ensures HasLayout(r, CanonicalSeparator)
    ensures Valid(t) ==> FieldsOf(r, 0) == t.(micro := 0)
  {
    var r := DateText(t) + [CanonicalSeparator] + TimeText(t);
    assert r[..10] == DateText(t) && r[11..19] == TimeText(t);
    FieldSlices(t, CanonicalSeparator, r);
    if Valid(t) then FieldsOfRendering(t, CanonicalSeparator, r, 0); r else r
  }

  /** `datetime.strftime(t, "%Y-%m-%d %H:%M:%S.%f")`: a spelling of `t` in
      the raw input format. */
  function InputForm(t: DateTime): (r: string)
    ensures |r| == 26
  {
    DateText(t) + [InputSeparator] + TimeText(t) + "." + Digits(t.micro, 6)
  }

  /** The canonical spelling of an accepted raw timestamp, read off its
      characters: the date, a `T`, the time, and no fraction. */
  function Respelled(raw: string): (r: string)
    requires |raw| >= 19
    ensures |r| == 19
  {
    raw[..10] + [CanonicalSeparator] + raw[11..19]
  }

  /** Where the parts of `a x b y c` sit. */
  lemma JoinedSlices(a: string, x: char, b: string, y: char, c: string)
    ensures var s := a + [x] + b + [y] + c;
      && s[0..|a|] == a && s[|a|] == x && s[|a| + 1..|a| + 1 + |b|] == b
      && s[|a| + 1 + |b|] == y && s[|a| + 2 + |b|..] == c
  {
  }

  /** Where each field sits in the date and the time parts. */
  lemma PartSlices(t: DateTime)
    ensures var d := DateText(t);
      d[0..4] == Digits(t.year, 4) && d[4] == '-' && d[5..7] == Digits(t.month, 2)
      && d[7] == '-' && d[8..10] == Digits(t.day, 2)
    ensures var h := TimeText(t);
      h[0..2] == Digits(t.hour, 2) && h[2] == ':' && h[3..5] == Digits(t.minute, 2)
      && h[5] == ':' && h[6..8] == Digits(t.second, 2)
  {
    JoinedSlices(Digits(t.year, 4), '-', Digits(t.month, 2), '-', Digits(t.day, 2));
    JoinedSlices(Digits(t.hour, 2), ':', Digits(t.minute, 2), ':', Digits(t.second, 2));
  }

  /** Where each field sits in a string made of a date part, a
      separator and a time part. */
  lemma FieldSlices(t: DateTime, sep: char, s: string)
    requires |s| >= 19 && s[..10] == DateText(t) && s[10] == sep && s[11..19] == TimeText(t)
    ensures && s[0..4] == Digits(t.year, 4) && s[5..7] == Digits(t.month, 2)
      && s[8..10] == Digits(t.day, 2) && s[11..13] == Digits(t.hour, 2)
      && s[14..16] == Digits(t.minute, 2) && s[17..19] == Digits(t.second, 2)
      && HasLayout(s, sep)
  {
    PartSlices(t);
    var d, h := s[..10], s[11..19];
    assert s[0..4] == d[0..4] && s[5..7] == d[5..7] && s[8..10] == d[8..10];
    assert s[4] == d[4] && s[7] == d[7];
    assert s[11..13] == h[0..2];
    assert s[14..16] == h[3..5] by {
      assert s[14..16] == [s[14], s[15]] && h[3..5] == [h[3], h[4]];
    }
    assert s[17..19] == h[6..8];
    assert s[13] == h[2] && s[16] == h[5];
  }

  /** The fields read back from a rendering of a valid date-time are
      its own. */
  lemma FieldsOfRendering(t: DateTime, sep: char, s: string, micro: nat)
    requires Valid(t)
    requires |s| >= 19 && s[..10] == DateText(t) && s[10] == sep && s[11..19] == TimeText(t)
    ensures DigitFields(s) && FieldsOf(s, micro) == t.(micro := micro)
  {
    FieldSlices(t, sep, s);
    assert Pow10(4) == 10000 && Pow10(2) == 100;
    ValueOfDigits(t.year, 4);
    ValueOfDigits(t.month, 2);
    ValueOfDigits(t.day, 2);
    ValueOfDigits(t.hour, 2);
    ValueOfDigits(t.minute, 2);
    ValueOfDigits(t.second, 2);
  }

  /** The fields are read from the first 19 characters alone. */
  lemma FieldsOfPrefix(a: string, b: string, micro: nat)
    requires DigitFields(a) && |b| >= 19 && a[..19] == b[..19]
    ensures DigitFields(b) && FieldsOf(b, micro) == FieldsOf(a, micro)
  {
    var p := a[..19];
    assert a[0..4] == p[0..4] == b[0..4] && a[5..7] == p[5..7] == b[5..7];
    assert a[8..10] == p[8..10] == b[8..10] && a[11..13] == p[11..13] == b[11..13];
    assert a[14..16] == p[14..16] == b[14..16] && a[17..19] == p[17..19] == b[17..19];
  }

  /** Where each field sits in a canonical or input-format rendering. */
  lemma RenderingSlices(t: DateTime)
    ensures var c := Canonical(t);
      && c[0..4] == Digits(t.year, 4) && c[5..7] == Digits(t.month, 2)
      && c[8..10] == Digits(t.day, 2) && c[11..13] == Digits(t.hour, 2)
      && c[14..16] == Digits(t.minute, 2) && c[17..19] == Digits(t.second, 2)
      && HasLayout(c, CanonicalSeparator)
    ensures var s := InputForm(t);
      && s[0..4] == Digits(t.year, 4) && s[5..7] == Digits(t.month, 2)
      && s[8..10] == Digits(t.day, 2) && s[11..13] == Digits(t.hour, 2)
      && s[14..16] == Digits(t.minute, 2) && s[17..19] == Digits(t.second, 2)
      && HasLayout(s, InputSeparator) && s[19] == '.' && s[20..] == Digits(t.micro, 6)
  {
    var c := Canonical(t);
    assert c[..10] == DateText(t) && c[11..19] == TimeText(t);
    FieldSlices(t, CanonicalSeparator, c);
    var s := InputForm(t);
    JoinedSlices(DateText(t), InputSeparator, TimeText(t), '.', Digits(t.micro, 6));
    assert s[..10] == DateText(t) && s[11..19] == TimeText(t);
    FieldSlices(t, InputSeparator, s);
  }

  /** The input-format spelling has the raw input shape, and its
      fraction reads back as the microseconds. */
  lemma InputFormShape(t: DateTime)
    requires Valid(t)
    ensures var s := InputForm(t);
      && IsInputShape(s) && Micros(s[20..]) == t.micro
      && s[..10] == DateText(t) && s[10] == InputSeparator && s[11..19] == TimeText(t)
  {
    var s := InputForm(t);
    RenderingSlices(t);
    assert Pow10(6) == 1000000;
    ValueOfDigits(t.micro, 6);
    JoinedSlices(DateText(t), InputSeparator, TimeText(t), '.', Digits(t.micro, 6));
  }

  /** Every valid date-time has a spelling in the raw input format that
      `Parse` reads back exactly, microseconds included. */
  lemma ParseInputForm(t: DateTime)
    requires Valid(t)
    ensures Parse(InputForm(t)) == Some(t)
  {
    InputFormShape(t);
    FieldsOfRendering(t, InputSeparator, InputForm(t), t.micro);
  }

  /** A run of `w` characters, `x`, two characters, `y` and two more,
      cut back into its pieces. */
  lemma SplitThree(s: string, i: nat, w: nat, x: char, y: char)
    requires i + w + 6 <= |s| && s[i + w] == x && s[i + w + 3] == y
    ensures s[i..i + w + 6]
      == s[i..i + w] + [x] + s[i + w + 1..i + w + 3] + [y] + s[i + w + 4..i + w + 6]
  {
  }

  /** Rendering the date read from `s` gives back its characters. */
  lemma DateTextOfFields(s: string, micro: nat)
    requires DigitFields(s) && s[4] == '-' && s[7] == '-'
    ensures DateText(FieldsOf(s, micro)) == s[..10]
  {
    var y, mo, d := s[0..4], s[5..7], s[8..10];
    DigitsOfValue(y);
    DigitsOfValue(mo);
    DigitsOfValue(d);
    assert DateText(FieldsOf(s, micro)) == y + "-" + mo + "-" + d;
    SplitThree(s, 0, 4, '-', '-');
    assert s[..10] == s[0..10];
  }

  /** Rendering the time read from `s` gives back its characters. */
  lemma TimeTextOfFields(s: string, micro: nat)
    requires DigitFields(s) && s[13] == ':' && s[16] == ':'
    ensures TimeText(FieldsOf(s, micro)) == s[11..19]
  {
    var h, mi, se := s[11..13], s[14..16], s[17..19];
    DigitsOfValue(h);
    DigitsOfValue(mi);
    DigitsOfValue(se);
    assert TimeText(FieldsOf(s, micro)) == h + ":" + mi + ":" + se;
    SplitThree(s, 11, 2, ':', ':');
  }

  /** Formatting an accepted raw timestamp canonically keeps its date and
      time digits as written, swaps the space for `T` and drops the
      fraction. */
  lemma CanonicalOfParse(s: string, t: DateTime)
    requires Parse(s) == Some(t)
    ensures Canonical(t) == Respelled(s)
  {
    var micro := Micros(s[20..]);
    assert t == FieldsOf(s, micro);
    DateTextOfFields(s, micro);
    TimeTextOfFields(s, micro);
  }

  /** The date part determines the date of a valid date-time. */
  lemma DateTextInjective(t1: DateTime, t2: DateTime)
    requires Valid(t1) && Valid(t2) && DateText(t1) == DateText(t2)
    ensures t1.year == t2.year && t1.month == t2.month && t1.day == t2.day
  {
    PartSlices(t1);
    PartSlices(t2);
    assert Pow10(4) == 10000 && Pow10(2) == 100;
    DigitsInjective(t1.year, t2.year, 4);
    DigitsInjective(t1.month, t2.month, 2);
    DigitsInjective(t1.day, t2.day, 2);
  }

  /** The time part determines the time of day, to the second, of a
      valid date-time. */
  lemma TimeTextInjective(t1: DateTime, t2: DateTime)
    requires Valid(t1) && Valid(t2) && TimeText(t1) == TimeText(t2)
    ensures t1.hour == t2.hour && t1.minute == t2.minute && t1.second == t2.second
  {
    PartSlices(t1);
    PartSlices(t2);
    assert Pow10(2) == 100;
    DigitsInjective(t1.hour, t2.hour, 2);
    DigitsInjective(t1.minute, t2.minute, 2);
    DigitsInjective(t1.second, t2.second, 2);
  }

  /** Two valid date-times have the same canonical rendering exactly when
      they differ at most in their microseconds. */
  lemma CanonicalDropsOnlyMicros(t1: DateTime, t2: DateTime)
    requires Valid(t1) && Valid(t2)
    ensures Canonical(t1) == Canonical(t2) <==> t1.(micro := 0) == t2.(micro := 0)
  {
    if Canonical(t1) == Canonical(t2) {
      var c := Canonical(t1);
      assert c[..10] == DateText(t1) && c[..10] == DateText(t2);
      assert c[11..] == TimeText(t1) && c[11..] == TimeText(t2);
      DateTextInjective(t1, t2);
      TimeTextInjective(t1, t2);
    }
  }
}

/** An optional value: `None` stands for JavaScript's `null`, or for a
    number that came out as `NaN`. */
module Optional {
  datatype Option<T> = None | Some(value: T)
}

/** The string handling the clock relies on: `String(n)` of a whole number,
    `padStart`, `split` and `Number` of a decimal field. */
module Text {
  import opened Optional

  predicate IsDigit(c: char) {
    '0' <= c <= '9'
  }

  predicate AllDigits(s: string) {
    forall i :: 0 <= i < |s| ==> IsDigit(s[i])
  }

  function DigitChar(d: nat): (c: char)
    requires d < 10
    ensures IsDigit(c)
  {
    ('0' as int + d) as char
  }

  function DigitValue(c: char): (d: nat)
    requires IsDigit(c)
    ensures d < 10 && DigitChar(d) == c
  {
    c as int - '0' as int
  }

  /** `String(n)` for a whole number n >= 0: its decimal digits, most
      significant first, with no leading zero. */
  function Decimal(n: nat): (s: string)
    ensures 1 <= |s| && AllDigits(s)
    ensures n < 10 <==> |s| == 1
    ensures n < 100 ==> |s| <= 2
    ensures |s| > 1 ==> s[0] != '0'
  {
    if n < 10 then [DigitChar(n)] else Decimal(n / 10) + [DigitChar(n % 10)]
  }

  /** The number a string of decimal digits denotes. */
  function DigitsValue(s: string): nat
    requires AllDigits(s)
  {
    if s == [] then 0 else DigitsValue(s[..|s| - 1]) * 10 + DigitValue(s[|s| - 1])
  }

  /** JavaScript's `Number(s)` restricted to fields of decimal digits (the
      empty field reads as 0), which is all the time strings of this model
      hold; every other field, including those `Number` would accept with
      a sign, blanks, a decimal point or an exponent, gives `None`. */
  function ParseNumber(s: string): (r: Option<nat>)
    ensures r.Some? <==> AllDigits(s)
  {
    if AllDigits(s) then Some(DigitsValue(s)) else None
  }

  /** `s.padStart(width, fill)` for a one-character fill: fill characters
      are put in front until the string is `width` long. */
  function PadStart(s: string, width: nat, fill: char): (r: string)
    ensures |r| == if |s| < width then width else |s|
  {
    if |s| >= width then s else seq(width - |s|, _ => fill) + s
  }

  /** The padded string is fill characters followed by the original. */
  lemma PadStartParts(s: string, width: nat, fill: char)
    ensures var r := PadStart(s, width, fill);
      r[|r| - |s|..] == s && forall i :: 0 <= i < |r| - |s| ==> r[i] == fill
  {
  }

  /** `String(n).padStart(2, '0')`. */
  function TwoDigits(n: nat): (s: string)
    ensures n < 100 ==> |s| == 2 && AllDigits(s)
  {
    PadStart(Decimal(n), 2, '0')
  }

  /** `s.split(sep)`: the fields between occurrences of sep, in order. */
  function Split(s: string, sep: char): (fields: seq<string>)
    ensures |fields| >= 1
  {
    if s == [] then [""]
    else
      var rest := Split(s[1..], sep);
      if s[0] == sep then [""] + rest else [[s[0]] + rest[0]] + rest[1..]
  }

  /** `Number` applied to every field, as `.map(Number)` does. */
  function ParseFields(fields: seq<string>): (r: seq<Option<nat>>)
    ensures |r| == |fields|
    ensures forall i :: 0 <= i < |fields| ==> r[i] == ParseNumber(fields[i])
  {
    if fields == [] then [] else [ParseNumber(fields[0])] + ParseFields(fields[1..])
  }

  /** Reading back the digits that `String(n)` writes gives n. */
  lemma {:induction false} DecimalRoundTrip(n: nat)
    ensures DigitsValue(Decimal(n)) == n
  {
    if n >= 10 {
      var s := Decimal(n);
      assert s[..|s| - 1] == Decimal(n / 10);
      DecimalRoundTrip(n / 10);
    }
  }

  /** A leading zero does not change the number a digit string denotes. */
  lemma {:induction false} LeadingZero(s: string)
    requires AllDigits(s)
    ensures AllDigits(['0'] + s) && DigitsValue(['0'] + s) == DigitsValue(s)
  {
    var z := ['0'] + s;
    if s != [] {
      assert z[..|z| - 1] == ['0'] + s[..|s| - 1];
      LeadingZero(s[..|s| - 1]);
    }
  }

  /** `Number(String(n).padStart(2, '0'))` is n again. */
  lemma {:induction false} TwoDigitsRoundTrip(n: nat)
    requires n < 100
    ensures ParseNumber(TwoDigits(n)) == Some(n)
  {
    DecimalRoundTrip(n);
    if n < 10 {
      assert TwoDigits(n) == ['0'] + Decimal(n);
      LeadingZero(Decimal(n));
    } else {
      assert TwoDigits(n) == Decimal(n);
    }
  }

  /** Splitting at the first separator: a field free of sep followed by sep
      and the rest splits into that field and the rest's fields. */
  lemma {:induction false} SplitAtSeparator(a: string, sep: char, b: string)
    requires sep !in a
    ensures Split(a + [sep] + b, sep) == [a] + Split(b, sep)
  {
    if a == [] {
      assert a + [sep] + b == [sep] + b;
    } else {
      var s := a + [sep] + b;
      assert s[0] == a[0] && s[1..] == a[1..] + [sep] + b;
      SplitAtSeparator(a[1..], sep, b);
      assert [a[0]] + a[1..] == a;
    }
  }

  /** A string free of sep is a single field. */
  lemma {:induction false} SplitWithoutSeparator(a: string, sep: char)
    requires sep !in a
    ensures Split(a, sep) == [a]
  {
    if a != [] {
      SplitWithoutSeparator(a[1..], sep);
      assert [a[0]] + a[1..] == a;
    }
  }

  /** Two fields joined by a separator that neither contains split apart again. */
  lemma SplitTwo(a: string, sep: char, b: string)
    requires sep !in a && sep !in b
    ensures Split(a + [sep] + b, sep) == [a, b]
  {
    SplitAtSeparator(a, sep, b);
    SplitWithoutSeparator(b, sep);
  }

  /** `Number` of each of two fields that a split produced. */
  lemma ReadTwoFields(a: string, b: string, sep: char)
    requires Split(a + [sep] + b, sep) == [a, b]
    ensures ParseFields(Split(a + [sep] + b, sep)) == [ParseNumber(a), ParseNumber(b)]
  {
    var r := ParseFields([a, b]);
    assert r[0] == ParseNumber(a) && r[1] == ParseNumber(b);
  }

  /** Digits are never the separators the clock splits at. */
  lemma DigitsFreeOf(s: string, sep: char)
    requires AllDigits(s) && !IsDigit(sep)
    ensures sep !in s
  {
  }
}

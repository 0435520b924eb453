/**
 * Decimal numerals as the screens print them (`toString`, `padStart(2, '0')`,
 * fields joined by ':'), and the reading back of such text into numbers.
 */
module Decimal {
  import opened Wrappers

  predicate IsDigit(c: char) {
    '0' <= c <= '9'
  }

  predicate AllDigits(s: string) {
    forall i :: 0 <= i < |s| ==> IsDigit(s[i])
  }

  /** A non-empty run of decimal digits. */
  predicate IsNumeral(s: string) {
    |s| > 0 && AllDigits(s)
  }

  function DigitChar(d: nat): (c: char)
    requires d < 10
    ensures IsDigit(c) && c as int - '0' as int == d
  {
    ('0' as int + d) as char
  }

  function DigitValue(c: char): (d: nat)
    requires IsDigit(c)
    ensures d < 10 && DigitChar(d) == c
  {
    c as int - '0' as int
  }

  /** `n.toString()` for a non-negative integer: no leading zeros, one digit exactly below 10. */
  function Digits(n: nat): (s: string)
    ensures IsNumeral(s)
    ensures |s| == 1 <==> n < 10
    ensures n >= 10 ==> s[0] != '0'
    decreases n
  {
    if n < 10 then [DigitChar(n)] else Digits(n / 10) + [DigitChar(n % 10)]
  }

  /** The number a digit string denotes; leading zeros are allowed and the empty string is 0. */
  function ValueOf(s: string): nat
    requires AllDigits(s)
  {
    if s == [] then 0 else ValueOf(s[..|s| - 1]) * 10 + DigitValue(s[|s| - 1])
  }

  /** Printing a number in decimal and reading it back gives the number. */
  lemma {:induction false} ValueOfDigits(n: nat)
    ensures ValueOf(Digits(n)) == n
    decreases n
  {
    if n >= 10 {
      var s := Digits(n);
      assert s[..|s| - 1] == Digits(n / 10);
      ValueOfDigits(n / 10);
    }
  }

  /** Distinct numbers print differently. */
  lemma DigitsInjective(m: nat, n: nat)
    requires m != n
    ensures Digits(m) != Digits(n)
  {
    ValueOfDigits(m);
    ValueOfDigits(n);
  }

  /** A leading zero does not change the value a digit string denotes. */
  lemma {:induction false} LeadingZero(s: string)
    requires AllDigits(s)
    ensures AllDigits("0" + s) && ValueOf("0" + s) == ValueOf(s)
    decreases |s|
  {
    if s != [] {
      var t := "0" + s;
      assert t[..|t| - 1] == "0" + s[..|s| - 1];
      LeadingZero(s[..|s| - 1]);
    }
  }

  /** `n.toString().padStart(2, '0')`: at least two digits, still denoting n. */
  function Pad2(n: nat): (s: string)
    ensures IsNumeral(s) && |s| >= 2 && ValueOf(s) == n
    ensures n < 10 ==> |s| == 2 && s[0] == '0'
    ensures n >= 10 ==> s == Digits(n)
  {
    var d := Digits(n);
    ValueOfDigits(n);
    LeadingZero(d);
    if |d| < 2 then "0" + d else d
  }

  /** `s.split(sep)`: the fields between occurrences of `sep`, always at least one. */
  function Split(s: string, sep: char): (fs: seq<string>)
    ensures |fs| >= 1
  {
    if s == [] then [[]]
    else
      var rest := Split(s[1..], sep);
      if s[0] == sep then [[]] + rest else [[s[0]] + rest[0]] + rest[1..]
  }

  /** A string without the separator is a single field. */
  lemma {:induction false} SplitNoSep(a: string, sep: char)
    requires sep !in a
    ensures Split(a, sep) == [a]
    decreases |a|
  {
    if a != [] {
      SplitNoSep(a[1..], sep);
      assert a[0] != sep;
      assert [a[0]] + a[1..] == a;
    }
  }

  /** A field followed by the separator splits off as the first field. */
  lemma {:induction false} SplitFirst(a: string, sep: char, b: string)
    requires sep !in a
    ensures Split(a + [sep] + b, sep) == [a] + Split(b, sep)
    decreases |a|
  {
    if a == [] {
      assert a + [sep] + b == [sep] + b;
      assert ([sep] + b)[1..] == b;
    } else {
      var s := a + [sep] + b;
      assert s[1..] == a[1..] + [sep] + b;
      SplitFirst(a[1..], sep, b);
      assert [a[0]] + a[1..] == a;
    }
  }

  /** The seconds a clock display denotes: each field is one base-60 place. */
  function ClockValue(fs: seq<string>): nat
    requires forall i :: 0 <= i < |fs| ==> AllDigits(fs[i])
  {
    if fs == [] then 0 else ClockValue(fs[..|fs| - 1]) * 60 + ValueOf(fs[|fs| - 1])
  }

  /** Reads `F1:...:Fk` back into seconds; None unless every field is a non-empty digit run. */
  function ReadClock(t: string): Option<nat> {
    var fs := Split(t, ':');
    if forall i :: 0 <= i < |fs| ==> IsNumeral(fs[i]) then Some(ClockValue(fs)) else None
  }
}

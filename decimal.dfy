/** Decimal text of integers, as C++ streams and printf write it, and the two
    readers the object register applies to such text: FString's
    ParseIntoArray (split on a delimiter, empty fields kept) and Atoi. */
module Decimal {

  predicate IsDigit(c: char) { '0' <= c <= '9' }

  predicate AllDigits(s: string) { forall i :: 0 <= i < |s| ==> IsDigit(s[i]) }

  function DigitChar(d: nat): (c: char)
    requires d < 10
    ensures IsDigit(c) && c as int - '0' as int == d
  {
    ('0' as int + d) as char
  }

  function DigitValue(c: char): (d: nat)
    requires IsDigit(c)
    ensures d < 10 && DigitChar(d) == c
  {
    c as int - '0' as int
  }

  /** The decimal text of `n`, most significant digit first, no leading zeros. */
  function NatToString(n: nat): (s: string)
    ensures 1 <= |s| && AllDigits(s)
    ensures s[0] == '0' <==> n == 0
    decreases n
  {
    if n < 10 then [DigitChar(n)] else NatToString(n / 10) + [DigitChar(n % 10)]
  }

  /** The decimal text of a signed integer (`%d`, `operator<<`). */
  function IntToString(x: int): (s: string)
    ensures 1 <= |s|
    ensures s[0] == '-' <==> x < 0
    ensures x >= 0 ==> s == NatToString(x)
  {
    if x < 0 then "-" + NatToString(-x) else NatToString(x)
  }

  /** The value of a string of decimal digits (the empty string reads as 0). */
  function DigitsValue(s: string): nat
    requires AllDigits(s)
  {
    if s == [] then 0 else DigitsValue(s[..|s| - 1]) * 10 + DigitValue(s[|s| - 1])
  }

  lemma {:induction false} DigitsValueOfNatToString(n: nat)
    ensures DigitsValue(NatToString(n)) == n
    decreases n
  {
    if n >= 10 {
      var s := NatToString(n);
      assert s[..|s| - 1] == NatToString(n / 10);
      DigitsValueOfNatToString(n / 10);
    }
  }

  /** Decimal text is injective: two numbers with the same text are equal. */
  lemma NatToStringInjective(m: nat, n: nat)
    requires NatToString(m) == NatToString(n)
    ensures m == n
  {
    DigitsValueOfNatToString(m);
    DigitsValueOfNatToString(n);
  }

  /** Conversion of a real to an integer by truncation toward zero, as C's
      integer casts and Python's `int` do. */
  function Truncate(x: real): (r: int)
    ensures x >= 0.0 ==> 0 <= r && r as real <= x < r as real + 1.0
    ensures x < 0.0 ==> r <= 0 && r as real - 1.0 < x <= r as real
  {
    if x >= 0.0 then x.Floor else -((-x).Floor)
  }

  // ---------------------------------------------------------------------------
  // Atoi: optional leading white space, an optional sign, then the longest run
  // of digits; anything after that run is ignored.

  predicate IsSpace(c: char) { c == ' ' || c == '\t' || c == '\n' || c == '\r' || c == '\U{000C}' || c == '\U{000B}' }

  function SkipSpace(s: string): (t: string)
    ensures |t| <= |s| && t == s[|s| - |t|..]
    ensures t == [] || !IsSpace(t[0])
  {
    if s != [] && IsSpace(s[0]) then SkipSpace(s[1..]) else s
  }

  function LeadingDigits(s: string): (d: string)
    ensures AllDigits(d) && d <= s
    ensures |d| < |s| ==> !IsDigit(s[|d|])
  {
    if s != [] && IsDigit(s[0]) then [s[0]] + LeadingDigits(s[1..]) else []
  }

  function Atoi(s: string): int
  {
    var t := SkipSpace(s);
    if t != [] && t[0] == '-' then 0 - DigitsValue(LeadingDigits(t[1..]))
    else if t != [] && t[0] == '+' then DigitsValue(LeadingDigits(t[1..]))
    else DigitsValue(LeadingDigits(t))
  }

  lemma {:induction false} LeadingDigitsOfDigits(s: string)
    requires AllDigits(s)
    ensures LeadingDigits(s) == s
  {
    if s != [] {
      LeadingDigitsOfDigits(s[1..]);
    }
  }

  lemma AtoiOfDigits(d: string)
    requires 1 <= |d| && AllDigits(d)
    ensures Atoi(d) == DigitsValue(d)
  {
    LeadingDigitsOfDigits(d);
    assert !IsSpace(d[0]);
    assert SkipSpace(d) == d;
  }

  lemma AtoiOfNegatedDigits(d: string)
    requires 1 <= |d| && AllDigits(d)
    ensures Atoi("-" + d) == 0 - DigitsValue(d)
  {
    LeadingDigitsOfDigits(d);
    var m := "-" + d;
    assert m[0] == '-' && !IsSpace(m[0]);
    assert SkipSpace(m) == m;
    assert m[1..] == d;
  }

  /** Atoi reads back what IntToString writes. */
  lemma AtoiIntToString(x: int)
    ensures Atoi(IntToString(x)) == x
  {
    var n: nat := if x < 0 then -x else x;
    DigitsValueOfNatToString(n);
    if x < 0 {
      AtoiOfNegatedDigits(NatToString(n));
    } else {
      AtoiOfDigits(NatToString(n));
    }
  }

  // ---------------------------------------------------------------------------
  // Splitting on a one-character delimiter, empty fields kept.

  /** The fields of `s` between occurrences of `sep`; there is always one more
      field than there are separators. */
  function Fields(s: string, sep: char): (r: seq<string>)
    ensures 1 <= |r|
    decreases |s|
  {
    if s == [] then [""]
    else
      var rest := Fields(s[1..], sep);
      if s[0] == sep then [""] + rest else [[s[0]] + rest[0]] + rest[1..]
  }

  /** FString::ParseIntoArray with culling of empty fields switched off: an
      empty string gives no fields at all. */
  function ParseIntoArray(s: string, sep: char): (r: seq<string>)
    ensures s == [] <==> r == []
  {
    if s == [] then [] else Fields(s, sep)
  }

  lemma {:induction false} FieldsWithoutSeparator(s: string, sep: char)
    requires sep !in s
    ensures Fields(s, sep) == [s]
    decreases |s|
  {
    if s != [] {
      FieldsWithoutSeparator(s[1..], sep);
      assert s == [s[0]] + s[1..];
    }
  }

  /** Splitting distributes over a separator: the fields of `a`, then those of `b`. */
  lemma {:induction false} FieldsOfJoin(a: string, sep: char, b: string)
    ensures Fields(a + [sep] + b, sep) == Fields(a, sep) + Fields(b, sep)
    decreases |a|
  {
    var s := a + [sep] + b;
    if a == [] {
      assert s[1..] == b;
    } else {
      assert s[1..] == a[1..] + [sep] + b;
      FieldsOfJoin(a[1..], sep, b);
    }
  }

  /** The last field of `prefix + "_" + digits` is the digits, whatever the prefix holds. */
  lemma LastFieldAfterSeparator(prefix: string, sep: char, last: string)
    requires sep !in last
    ensures var r := ParseIntoArray(prefix + [sep] + last, sep);
      |r| >= 2 && r[|r| - 1] == last
  {
    FieldsOfJoin(prefix, sep, last);
    FieldsWithoutSeparator(last, sep);
  }

  lemma DigitsHaveNoSeparator(s: string, sep: char)
    requires AllDigits(s) && !IsDigit(sep)
    ensures sep !in s
  {
  }
}

/**
 * The few pieces of Java arithmetic and java.lang.String / Integer / Long behaviour the model
 * depends on: int wrap-around and truncating division, decimal rendering of integers,
 * Integer.parseInt and Long.parseLong (ASCII digits only), String.split on a single-character
 * separator, and toLowerCase (ASCII letters only).
 */
module JavaText {
  import opened Base

  const Int32Min: int := -0x8000_0000
  const Int32Max: int := 0x7FFF_FFFF
  const Int64Min: int := -0x8000_0000_0000_0000
  const Int64Max: int := 0x7FFF_FFFF_FFFF_FFFF

  predicate IsInt32(n: int) { Int32Min <= n <= Int32Max }

  /** Java `int` arithmetic: the exact result taken modulo 2^32 into the int range. */
  function Wrap32(n: int): (r: int)
    ensures IsInt32(r) && (r - n) % 0x1_0000_0000 == 0
    ensures IsInt32(n) ==> r == n
  {
    (n - Int32Min) % 0x1_0000_0000 + Int32Min
  }

  /** Past the largest int a Java sum wraps round to the most negative ones. */
  lemma Wrap32Overflow(n: int)
    requires Int32Max < n < 0x1_0000_0000
    ensures Wrap32(n) == n - 0x1_0000_0000 && Wrap32(n) < 0
  {
  }

  /** Java's `/` on a positive divisor: the quotient truncated toward zero. */
  function JavaDiv(a: int, b: int): int
    requires b > 0
  {
    if a >= 0 then a / b else -((-a) / b)
  }

  /** Java's `%` on a positive divisor: what is left once the quotient's multiple is taken off. */
  function JavaRem(a: int, b: int): int
    requires b > 0
  {
    a - JavaDiv(a, b) * b
  }

  /**
   * Java's `/` rounds toward zero, so the remainder takes the sign of the dividend and is
   * smaller than the divisor; on a dividend that is not negative both agree with Euclidean
   * division.
   */
  lemma JavaDivision(a: int, b: int)
    requires b > 0
    ensures a == JavaDiv(a, b) * b + JavaRem(a, b)
    ensures a >= 0 ==> 0 <= JavaRem(a, b) < b && JavaDiv(a, b) == a / b && JavaRem(a, b) == a % b
    ensures a < 0 ==> -b < JavaRem(a, b) <= 0 && JavaDiv(a, b) == -((-a) / b)
  {
  }

  predicate IsDigit(c: char) { '0' <= c <= '9' }

  predicate AllDigits(s: string) { forall i | 0 <= i < |s| :: IsDigit(s[i]) }

  function DigitValue(c: char): nat
    requires IsDigit(c)
  {
    (c as int) - ('0' as int)
  }

  function DigitChar(d: nat): (c: char)
    requires d < 10
    ensures IsDigit(c) && DigitValue(c) == d
  {
    (('0' as int) + d) as char
  }

  /** The number a run of decimal digits denotes, most significant digit first. */
  function DigitsValue(s: string): nat
    requires AllDigits(s)
  {
    if |s| == 0 then 0 else DigitsValue(s[..|s| - 1]) * 10 + DigitValue(s[|s| - 1])
  }

  /** Decimal rendering of a natural number, without leading zeros. */
  function NatToString(n: nat): (s: string)
    ensures 1 <= |s| && AllDigits(s) && DigitsValue(s) == n
    ensures s[0] != '-' && s[0] != '+'
    decreases n
  {
    if n < 10 then [DigitChar(n)]
    else
      var prefix := NatToString(n / 10);
      var s := prefix + [DigitChar(n % 10)];
      assert s[..|s| - 1] == prefix;
      s
  }

  /** Integer.toString / String.valueOf / "%d": an optional minus sign, then the digits. */
  function IntToString(n: int): (s: string)
    ensures |s| >= 1
    ensures forall i | 0 <= i < |s| :: s[i] == '-' || IsDigit(s[i])
  {
    if n < 0 then "-" + NatToString(-n) else NatToString(n)
  }

  /**
   * Integer.parseInt / Long.parseLong with the range [lo, hi]: an optional leading sign
   * followed by at least one digit, and a value inside the range; anything else throws
   * NumberFormatException, modelled as None.
   */
  function ParseBounded(s: string, lo: int, hi: int): (r: Option<int>)
    ensures r.Some? ==> lo <= r.value <= hi
  {
    if |s| == 0 then None
    else if s[0] == '-' || s[0] == '+' then
      if |s| == 1 || !AllDigits(s[1..]) then None
      else
        var v: int := if s[0] == '-' then -(DigitsValue(s[1..]) as int) else DigitsValue(s[1..]);
        if lo <= v <= hi then Some(v) else None
    else if !AllDigits(s) then None
    else
      var v := DigitsValue(s);
      if lo <= v <= hi then Some(v) else None
  }

  function ParseInt(s: string): (r: Option<int>)
    ensures r.Some? ==> IsInt32(r.value)
  {
    ParseBounded(s, Int32Min, Int32Max)
  }

  function ParseLong(s: string): (r: Option<int>)
    ensures r.Some? ==> Int64Min <= r.value <= Int64Max
  {
    ParseBounded(s, Int64Min, Int64Max)
  }

  /** Parsing a number's own rendering gives the number back, whenever it lies in the range. */
  lemma {:induction false} ParseBoundedRoundTrip(n: int, lo: int, hi: int)
    requires lo <= n <= hi
    ensures ParseBounded(IntToString(n), lo, hi) == Some(n)
  {
    var s := IntToString(n);
    if n < 0 {
      assert s[1..] == NatToString(-n);
    } else {
      assert s == NatToString(n);
    }
  }

  lemma ParseIntRoundTrip(n: int)
    requires IsInt32(n)
    ensures ParseInt(IntToString(n)) == Some(n)
  {
    ParseBoundedRoundTrip(n, Int32Min, Int32Max);
  }

  lemma ParseLongRoundTrip(n: int)
    requires Int64Min <= n <= Int64Max
    ensures ParseLong(IntToString(n)) == Some(n)
  {
    ParseBoundedRoundTrip(n, Int64Min, Int64Max);
  }

  /** Character.toLowerCase restricted to ASCII. */
  function LowerChar(c: char): char
  {
    if 'A' <= c <= 'Z' then ((c as int) + 32) as char else c
  }

  predicate HasNoUpper(s: string) { forall i | 0 <= i < |s| :: !('A' <= s[i] <= 'Z') }

  /** String.toLowerCase, letter by letter. */
  function ToLower(s: string): (r: string)
    ensures |r| == |s| && HasNoUpper(r)
    ensures forall i | 0 <= i < |s| :: r[i] == LowerChar(s[i])
  {
    seq(|s|, i requires 0 <= i < |s| => LowerChar(s[i]))
  }

  lemma ToLowerFixesLowercase(s: string)
    requires HasNoUpper(s)
    ensures ToLower(s) == s
  {
  }

  /**
   * Every piece between separators, empty ones included: one more piece than there are
   * separators.
   */
  function SplitAll(s: string, sep: char): (r: seq<string>)
    ensures |r| >= 1
    ensures forall i | 0 <= i < |r| :: sep !in r[i]
    ensures sep !in s ==> r == [s]
    decreases |s|
  {
    if |s| == 0 then [""]
    else
      var rest := SplitAll(s[1..], sep);
      if s[0] == sep then [""] + rest
      else
        assert sep !in s ==> sep !in s[1..];
        assert [s[0]] + s[1..] == s;
        [[s[0]] + rest[0]] + rest[1..]
  }

  function DropTrailingEmpty(parts: seq<string>): (r: seq<string>)
    ensures |r| <= |parts| && r == parts[..|r|]
    ensures |r| > 0 ==> r[|r| - 1] != ""
    ensures forall i | |r| <= i < |parts| :: parts[i] == ""
  {
    if |parts| == 0 then []
    else if parts[|parts| - 1] == "" then DropTrailingEmpty(parts[..|parts| - 1])
    else parts
  }

  /**
   * String.split with a one-character pattern and no limit: when the separator does not
   * occur the whole string is the only element (so "" splits to [""]); otherwise trailing
   * empty strings are removed (so "," splits to []).
   */
  function JavaSplit(s: string, sep: char): (r: seq<string>)
    ensures forall i | 0 <= i < |r| :: sep !in r[i]
    ensures sep !in s ==> r == [s]
  {
    var parts := SplitAll(s, sep);
    if |parts| == 1 then parts else DropTrailingEmpty(parts)
  }

  /** The fields written one after another with the separator between them. */
  function Join(fields: seq<string>, sep: char): string
    requires |fields| >= 1
  {
    if |fields| == 1 then fields[0] else fields[0] + [sep] + Join(fields[1..], sep)
  }

  lemma {:induction false} SplitAllFront(a: string, b: string, sep: char)
    requires sep !in a
    ensures SplitAll(a + [sep] + b, sep) == [a] + SplitAll(b, sep)
    decreases |a|
  {
    if |a| == 0 {
      assert a + [sep] + b == [sep] + b;
      assert ([sep] + b)[1..] == b;
    } else {
      var s := a + [sep] + b;
      assert s[0] == a[0];
      assert s[1..] == a[1..] + [sep] + b;
      SplitAllFront(a[1..], b, sep);
      assert [a[0]] + a[1..] == a;
    }
  }

  /** Splitting separator-free fields after joining them gives the fields back. */
  lemma {:induction false} SplitAllJoin(fields: seq<string>, sep: char)
    requires |fields| >= 1
    requires forall i | 0 <= i < |fields| :: sep !in fields[i]
    ensures SplitAll(Join(fields, sep), sep) == fields
    decreases |fields|
  {
    if |fields| > 1 {
      SplitAllJoin(fields[1..], sep);
      SplitAllFront(fields[0], Join(fields[1..], sep), sep);
      assert fields == [fields[0]] + fields[1..];
    }
  }

  /**
   * The Java split undoes Join, as long as no field contains the separator and the last
   * field is not empty (an empty last field would be dropped as trailing).
   */
  lemma JavaSplitJoin(fields: seq<string>, sep: char)
    requires |fields| >= 1
    requires forall i | 0 <= i < |fields| :: sep !in fields[i]
    requires |fields| == 1 || fields[|fields| - 1] != ""
    ensures JavaSplit(Join(fields, sep), sep) == fields
  {
    SplitAllJoin(fields, sep);
  }
}

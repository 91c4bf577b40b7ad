/**
 * TimerFormatter: a time in milliseconds shown as minutes:seconds:milliseconds, the way the
 * level screen and the leaderboard print the player's time.
 */
module TimerFormat {
  import opened JavaText

  /** A run of k zero digits. */
  function Zeros(k: nat): (r: string)
    ensures |r| == k && AllDigits(r) && DigitsValue(r) == 0
  {
    if k == 0 then "" else
      var r := Zeros(k - 1) + "0";
      assert r[..|r| - 1] == Zeros(k - 1);
      r
  }

  /**
   * "%0<width>d": a minus sign when the value is negative, then the magnitude's digits,
   * padded with zeros after the sign until the whole is at least `width` characters long.
   */
  function PadZero(n: int, width: nat): (r: string)
    ensures |r| >= width
    ensures n >= 0 ==> AllDigits(r) && DigitsValue(r) == n
    ensures n < 0 ==> |r| > 0 && r[0] == '-'
  {
    if n < 0 then "-" + ZeroPad(NatToString(-n), if width > 0 then width - 1 else 0)
    else ZeroPad(NatToString(n), width)
  }

  /** Digits with zeros put in front until there are at least `width` of them. */
  function ZeroPad(digits: string, width: nat): (r: string)
    requires AllDigits(digits)
    ensures |r| >= width && AllDigits(r) && DigitsValue(r) == DigitsValue(digits)
  {
    LeadingZeros(if |digits| < width then width - |digits| else 0, digits);
    Zeros(if |digits| < width then width - |digits| else 0) + digits
  }

  /** Zeros in front of a run of digits do not change the number it denotes. */
  lemma {:induction false} LeadingZeros(k: nat, d: string)
    requires AllDigits(d)
    ensures AllDigits(Zeros(k) + d) && DigitsValue(Zeros(k) + d) == DigitsValue(d)
    decreases |d|
  {
    var s := Zeros(k) + d;
    if |d| == 0 {
      assert s == Zeros(k);
    } else {
      var front := d[..|d| - 1];
      LeadingZeros(k, front);
      assert s[..|s| - 1] == Zeros(k) + front;
      assert s[|s| - 1] == d[|d| - 1];
    }
  }

  /** 10 to the power k. */
  function Pow10(k: nat): (r: nat)
    ensures r >= 1
  {
    if k == 0 then 1 else 10 * Pow10(k - 1)
  }

  /** A number below 10^k needs at most k digits (and always at least one). */
  lemma {:induction false} DigitsFit(n: nat, k: nat)
    requires 1 <= k && n < Pow10(k)
    ensures |NatToString(n)| <= k
    decreases k
  {
    if n >= 10 {
      assert k >= 2;
      DigitsFit(n / 10, k - 1);
    }
  }

  /** A value that fits the width is printed as exactly `width` digits. */
  lemma PadZeroFits(n: int, width: nat)
    requires 0 <= n < Pow10(width) && width >= 1
    ensures |PadZero(n, width)| == width
  {
    DigitsFit(n, width);
  }

  /**
   * TimerFormatter.formatMilliseconds: the minutes within the hour, the seconds within the
   * minute and what remains after the seconds are taken away, each computed with Java's
   * truncating `/` and `%`, printed as "%02d:%02d:%03d".
   */
  function FormatMilliseconds(milliseconds: int): (r: string)
    ensures |r| >= 9
  {
    Layout(Split(milliseconds))
  }

  /** The minutes, seconds and milliseconds formatMilliseconds prints. */
  function Split(milliseconds: int): (int, int, int)
  {
    var minutes := JavaRem(JavaDiv(milliseconds, 60000), 60);
    var seconds := JavaRem(JavaDiv(milliseconds, 1000), 60);
    var milli := JavaRem(milliseconds - seconds * 1000, 1000);
    (minutes, seconds, milli)
  }

  /** The format string "%02d:%02d:%03d". */
  function Layout(fields: (int, int, int)): (r: string)
    ensures |r| >= 9
  {
    var (minutes, seconds, milli) := fields;
    PadZero(minutes, 2) + ":" + PadZero(seconds, 2) + ":" + PadZero(milli, 3)
  }

  /** The three numbers formatMilliseconds prints for a time that is not negative. */
  lemma SplitNonNegative(ms: int)
    requires ms >= 0
    ensures Split(ms) == (ms / 60000 % 60, ms / 1000 % 60, ms % 1000)
  {
    FieldsNonNegative(ms);
    FormatIs(ms, ms / 60000 % 60, ms / 1000 % 60, ms % 1000);
  }

  /** Java's arithmetic in formatMilliseconds, on a time that is not negative. */
  lemma FieldsNonNegative(ms: int)
    requires ms >= 0
    ensures JavaRem(JavaDiv(ms, 60000), 60) == ms / 60000 % 60
    ensures JavaRem(JavaDiv(ms, 1000), 60) == ms / 1000 % 60
    ensures JavaRem(ms - (ms / 1000 % 60) * 1000, 1000) == ms % 1000
  {
    var seconds := ms / 1000 % 60;
    assert seconds <= ms / 1000;
    var rest := ms - seconds * 1000;
    assert ms == (ms / 1000) * 1000 + ms % 1000;
    assert rest == (ms / 1000 - seconds) * 1000 + ms % 1000;
    ModOfMultiplePlus(ms / 1000 - seconds, 1000, ms % 1000);
  }

  /** Adding a multiple of b to a remainder below b leaves the remainder. */
  lemma ModOfMultiplePlus(q: int, b: int, r: int)
    requires b > 0 && 0 <= r < b
    ensures (q * b + r) % b == r
  {
    var a := q * b + r;
    var k := a / b - q;
    assert a == (a / b) * b + a % b;
    assert k * b == r - a % b;
    MultipleBounds(k, b);
  }

  /** A non-zero multiple of b is at least b away from zero. */
  lemma MultipleBounds(k: int, b: int)
    requires b > 0
    ensures k >= 1 ==> k * b >= b
    ensures k <= -1 ==> k * b <= -b
  {
  }

  /**
   * `r` is nine characters: two digits, a colon, two digits, a colon and three digits, the
   * digit groups denoting the given minutes, seconds and milliseconds.
   */
  predicate Shows(r: string, minutes: int, seconds: int, milli: int)
  {
    |r| == 9 && r[2] == ':' && r[5] == ':' &&
    AllDigits(r[..2]) && AllDigits(r[3..5]) && AllDigits(r[6..]) &&
    DigitsValue(r[..2]) == minutes && DigitsValue(r[3..5]) == seconds && DigitsValue(r[6..]) == milli
  }

  /**
   * A time that is not negative is printed in exactly nine characters: two digits, a colon,
   * two digits, a colon and three digits; the fields read back as the minutes within the
   * hour, the seconds within the minute and the milliseconds within the second.
   */
  lemma FormatNonNegative(ms: int)
    requires ms >= 0
    ensures Shows(FormatMilliseconds(ms), ms / 60000 % 60, ms / 1000 % 60, ms % 1000)
  {
    SplitNonNegative(ms);
    LayoutShows(ms / 60000 % 60, ms / 1000 % 60, ms % 1000);
  }

  /** Fields that fit their widths are printed as fixed-width digit groups. */
  lemma LayoutShows(minutes: int, seconds: int, milli: int)
    requires 0 <= minutes < 100 && 0 <= seconds < 100 && 0 <= milli < 1000
    ensures Shows(Layout((minutes, seconds, milli)), minutes, seconds, milli)
  {
    PadZeroFits(minutes, 2);
    PadZeroFits(seconds, 2);
    PadZeroFits(milli, 3);
    Fields(PadZero(minutes, 2), PadZero(seconds, 2), PadZero(milli, 3));
  }

  /** Three fields of two, two and three characters joined by colons, and each read back. */
  lemma Fields(a: string, b: string, c: string)
    requires |a| == 2 && |b| == 2 && |c| == 3
    ensures var r := a + ":" + b + ":" + c;
            |r| == 9 && r[2] == ':' && r[5] == ':' && r[..2] == a && r[3..5] == b && r[6..] == c
  {
  }

  /**
   * The printed fields lose only whole hours: minutes, seconds and milliseconds put back
   * together give the time modulo one hour.
   */
  lemma FieldsWithinHour(ms: int)
    requires ms >= 0
    ensures (ms / 60000 % 60) * 60000 + (ms / 1000 % 60) * 1000 + ms % 1000 == ms % 3600000
  {
    var q := ms / 1000;
    assert ms == q * 1000 + ms % 1000;
    assert ms / 60000 == q / 60;
    assert q == (q / 60) * 60 + q % 60;
    assert q / 60 == (q / 3600) * 60 + (q / 60) % 60;
    assert ms == (q / 3600) * 3600000 + ((q / 60) % 60 * 60000 + q % 60 * 1000 + ms % 1000);
    ModOfMultiplePlus(q / 3600, 3600000, (q / 60) % 60 * 60000 + q % 60 * 1000 + ms % 1000);
  }

  /**
   * A negative time keeps Java's signs: the fields are those of the time's magnitude, each
   * negated, so every field that is not zero is printed with a minus sign.
   */
  lemma FormatNegative(ms: int)
    requires ms < 0
    ensures FormatMilliseconds(ms) == Layout((-((-ms) / 60000 % 60), -((-ms) / 1000 % 60), -((-ms) % 1000)))
  {
    SplitNegative(ms);
  }

  /** The fields of a negative time are those of its magnitude, negated. */
  lemma SplitNegative(ms: int)
    requires ms < 0
    ensures Split(ms) == (-((-ms) / 60000 % 60), -((-ms) / 1000 % 60), -((-ms) % 1000))
  {
    var a := -ms;
    NegatedField(a, 60000, 60);
    NegatedField(a, 1000, 60);
    NegatedMilli(a);
    FormatIs(ms, -(a / 60000 % 60), -(a / 1000 % 60), -(a % 1000));
  }

  /** A field of a negated time: Java's truncation makes it the negated field. */
  lemma NegatedField(a: int, b: int, c: int)
    requires a >= 0 && b > 0 && c > 0
    ensures JavaRem(JavaDiv(-a, b), c) == -(a / b % c)
  {
    JavaOdd(a, b);
    JavaOdd(a / b, c);
  }

  /** The millisecond field of a negated time, after the negated seconds are taken away. */
  lemma NegatedMilli(a: int)
    requires a >= 0
    ensures JavaRem(-a - (-(a / 1000 % 60)) * 1000, 1000) == -(a % 1000)
  {
    FieldsNonNegative(a);
    var seconds := a / 1000 % 60;
    assert -a - (-seconds) * 1000 == -(a - seconds * 1000);
    assert a - seconds * 1000 >= 0;
    JavaOdd(a - seconds * 1000, 1000);
  }

  /** formatMilliseconds prints the three fields it computes. */
  lemma FormatIs(ms: int, minutes: int, seconds: int, milli: int)
    requires minutes == JavaRem(JavaDiv(ms, 60000), 60) && seconds == JavaRem(JavaDiv(ms, 1000), 60)
    requires milli == JavaRem(ms - seconds * 1000, 1000)
    ensures Split(ms) == (minutes, seconds, milli)
  {
  }

  /** Java's truncating `/` and `%` are odd: negating the dividend negates both results. */
  lemma JavaOdd(x: int, b: int)
    requires b > 0
    ensures JavaDiv(-x, b) == -JavaDiv(x, b) && JavaRem(-x, b) == -JavaRem(x, b)
  {
  }
}

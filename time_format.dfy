/**
 * The time string of the watch face: `String.format("%d:%02d", hour, minute)`.
 * In a default locale whose digits are the ASCII '0'..'9' (the only case modelled),
 * Java's `%d` writes an int in decimal with a leading '-' for negative values, and
 * `%02d` pads with zeros to a width of two (a negative value is already two
 * characters or more, so only 0..9 are padded).
 */
module TimeFormat {
  import opened Wrappers

  predicate IsDigit(c: char) {
    '0' <= c <= '9'
  }

  predicate AllDigits(s: string) {
    forall i :: 0 <= i < |s| ==> IsDigit(s[i])
  }

  function DigitChar(d: nat): (c: char)
    requires d < 10
    ensures IsDigit(c)
  {
    (('0' as int) + d) as char
  }

  function DigitValue(c: char): int {
    (c as int) - ('0' as int)
  }

  /** Decimal digits of a natural number, most significant first, without leading zeros. */
  function Digits(n: nat): (s: string)
    ensures |s| >= 1 && AllDigits(s)
    ensures s[0] == '0' ==> n == 0
    decreases n
  {
    if n < 10 then [DigitChar(n)] else Digits(n / 10) + [DigitChar(n % 10)]
  }

  /** Java's `%d`: a '-' for a negative value, then the digits of its magnitude. */
  function DecimalString(n: int): (s: string)
    ensures n >= 0 ==> |s| >= 1 && AllDigits(s) && Value(s) == n && (s[0] == '0' ==> |s| == 1)
    ensures n < 0 ==> |s| >= 2 && s[0] == '-' && s[1] != '0' && AllDigits(s[1..]) && Value(s[1..]) == -n
  {
    if n < 0 then
      var d := Digits(-n);
      ValueOfDigits(-n);
      assert ("-" + d)[1..] == d;
      "-" + d
    else
      ValueOfDigits(n);
      Digits(n)
  }

  /** Java's `%02d`: at least two characters, and a non-negative value still reads back. */
  function ZeroPad2(n: int): (r: string)
    ensures |r| >= 2
    ensures n >= 0 ==> AllDigits(r) && Value(r) == n
    ensures 0 <= n < 100 ==> |r| == 2
  {
    var s := DecimalString(n);
    if |s| < 2 then
      assert n >= 0 && s == [DigitChar(n)];
      assert ("0" + s)[..1] == "0" && Value("0") == 0 by { assert "0"[..0] == []; }
      "0" + s
    else
      assert 10 <= n < 100 ==> s == Digits(n / 10) + [DigitChar(n % 10)];
      s
  }

  /**
   * The text drawn for the time of day: for a clock reading, the hour's digits without leading
   * zeros (an hour of 0 is the single digit "0"), a colon, two minute digits.
   */
  function FormatTime(hour: int, minute: int): (t: string)
    ensures 0 <= hour && 0 <= minute < 60 ==>
      |t| >= 4 && t[|t| - 3] == ':' && AllDigits(t[..|t| - 3]) && AllDigits(t[|t| - 2..])
    ensures 0 <= hour && 0 <= minute < 60 ==> (t[0] == '0' ==> |t| == 4)
  {
    var h := DecimalString(hour);
    var m := ZeroPad2(minute);
    var t := h + ":" + m;
    assert t[..|h|] == h && t[|h| + 1..] == m;
    t
  }

  /** The number a string of decimal digits denotes (reference reading, independent of Digits). */
  function Value(s: string): int {
    if s == [] then 0 else Value(s[..|s| - 1]) * 10 + DigitValue(s[|s| - 1])
  }

  /**
   * Reads back an "H:MM" string: a non-empty run of digits, a colon, exactly two digits.
   */
  function ParseTime(t: string): Option<(int, int)> {
    if |t| >= 4 && t[|t| - 3] == ':' && AllDigits(t[..|t| - 3]) && AllDigits(t[|t| - 2..]) then
      Some((Value(t[..|t| - 3]), Value(t[|t| - 2..])))
    else
      None
  }

  lemma {:induction false} ValueOfDigits(n: nat)
    ensures Value(Digits(n)) == n
    decreases n
  {
    if n >= 10 {
      var s := Digits(n);
      assert s[..|s| - 1] == Digits(n / 10);
      ValueOfDigits(n / 10);
    }
  }

  /** `FormatTime` loses nothing for a clock reading: parsing the text gives the hour and minute back. */
  lemma FormatTimeRoundTrip(hour: int, minute: int)
    requires 0 <= hour && 0 <= minute < 60
    ensures ParseTime(FormatTime(hour, minute)) == Some((hour, minute))
  {
    var t := FormatTime(hour, minute);
    var h := DecimalString(hour);
    var m := ZeroPad2(minute);
    assert |t| == |h| + 3;
    assert t[..|t| - 3] == h;
    assert t[|t| - 3] == ':';
    assert t[|t| - 2..] == m;
  }

  /** Two different clock readings never produce the same text. */
  lemma FormatTimeInjective(h1: int, m1: int, h2: int, m2: int)
    requires 0 <= h1 && 0 <= m1 < 60 && 0 <= h2 && 0 <= m2 < 60
    requires FormatTime(h1, m1) == FormatTime(h2, m2)
    ensures h1 == h2 && m1 == m2
  {
    FormatTimeRoundTrip(h1, m1);
    FormatTimeRoundTrip(h2, m2);
  }
}

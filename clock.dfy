/**
 * `formatTime` (script.js:26-30): a count of seconds shown as "mm:ss", each
 * field a decimal number padded on the left with '0' to two characters.
 * `String(n)` and `padStart` are modelled on strings of characters, so that
 * what the clock string says can be read back from it.
 */
module Clock {

  predicate IsDigit(c: char)
  {
    '0' <= c <= '9'
  }

  predicate AllDigits(s: string)
  {
    forall i :: 0 <= i < |s| ==> IsDigit(s[i])
  }

  function DigitChar(d: nat): (c: char)
    requires d < 10
    ensures IsDigit(c)
  {
    "0123456789"[d]
  }

  function DigitValue(c: char): (d: nat)
    requires IsDigit(c)
    ensures d < 10
  {
    c as int - '0' as int
  }

  /** `String(n)` for a non-negative integer: its decimal digits, without leading zeros. */
  function Decimal(n: nat): (s: string)
    ensures 1 <= |s| && AllDigits(s)
    ensures n < 10 ==> |s| == 1
    ensures n < 100 ==> |s| <= 2
    ensures s[0] == '0' <==> n == 0
  {
    if n < 10 then [DigitChar(n)] else Decimal(n / 10) + [DigitChar(n % 10)]
  }

  /** The number a string of decimal digits denotes (leading zeros allowed). */
  function DecimalValue(s: string): nat
    requires AllDigits(s)
  {
    if s == [] then 0 else DecimalValue(s[..|s| - 1]) * 10 + DigitValue(s[|s| - 1])
  }

  /** Reading back what `Decimal` wrote gives the number again. */
  lemma {:induction false} DecimalRoundTrip(n: nat)
    ensures DecimalValue(Decimal(n)) == n
  {
    var s := Decimal(n);
    if n >= 10 {
      DecimalRoundTrip(n / 10);
      assert s[..|s| - 1] == Decimal(n / 10);
    }
  }

  /** A leading '0' does not change the value of a digit string. */
  lemma {:induction false} LeadingZero(s: string)
    requires AllDigits(s)
    ensures DecimalValue(['0'] + s) == DecimalValue(s)
  {
    if s != [] {
      assert (['0'] + s)[..|s|] == ['0'] + s[..|s| - 1];
      LeadingZero(s[..|s| - 1]);
    }
  }

  /** `s.padStart(width, fill)` for a one-character `fill`. */
  function PadStart(s: string, width: nat, fill: char): (r: string)
    ensures |r| == if |s| >= width then |s| else width
    ensures r[|r| - |s|..] == s
    ensures forall i :: 0 <= i < |r| - |s| ==> r[i] == fill
    decreases width - |s|
  {
    if |s| >= width then s else PadStart([fill] + s, width, fill)
  }

  /** Padding a digit string with zeros keeps its value. */
  lemma {:induction false} ZeroPaddingKeepsValue(s: string, width: nat)
    requires AllDigits(s)
    ensures AllDigits(PadStart(s, width, '0'))
    ensures DecimalValue(PadStart(s, width, '0')) == DecimalValue(s)
    decreases width - |s|
  {
    if |s| < width {
      LeadingZero(s);
      ZeroPaddingKeepsValue(['0'] + s, width);
    }
  }

  /** One field of the clock: `String(n).padStart(2, '0')`. */
  function Field(n: nat): (f: string)
    ensures 2 <= |f| && AllDigits(f)
    ensures DecimalValue(f) == n
    ensures n < 100 ==> |f| == 2
    ensures n >= 10 ==> f[0] != '0'
  {
    var f := PadStart(Decimal(n), 2, '0');
    DecimalRoundTrip(n);
    ZeroPaddingKeepsValue(Decimal(n), 2);
    f
  }

  /** `formatTime(s)`: minutes `s / 60`, a colon, seconds `s % 60`. */
  function FormatTime(s: nat): string
  {
    Field(s / 60) + ":" + Field(s % 60)
  }

  /**
   * The shape of `formatTime(s)`: a minutes field of at least two digits worth
   * `s / 60`, a colon, and a seconds field of exactly two digits worth
   * `s % 60`, which is at most 59; together they make up `s`.
   */
  lemma FormatTimeFields(s: nat)
    ensures var mm, ss := Field(s / 60), Field(s % 60);
      && FormatTime(s) == mm + ":" + ss
      && 2 <= |mm| && AllDigits(mm) && DecimalValue(mm) == s / 60
      && |ss| == 2 && AllDigits(ss) && DecimalValue(ss) == s % 60
      && 0 <= s % 60 <= 59
      && 60 * (s / 60) + s % 60 == s
  {
  }

  /** A clock string splits at its colon in only one way once the seconds are two characters. */
  lemma {:induction false} SplitAtColon(mm: string, ss: string, mm': string, ss': string)
    requires |ss| == 2 && |ss'| == 2
    requires mm + ":" + ss == mm' + ":" + ss'
    ensures mm == mm' && ss == ss'
  {
    var t := mm + ":" + ss;
    assert |mm| == |mm'|;
    assert mm == t[..|mm|] == mm';
    assert ss == t[|t| - 2..] == ss';
  }

  /** A number of seconds is determined by its whole minutes and remaining seconds. */
  lemma MinutesAndSecondsDetermine(s: nat, s': nat)
    requires s / 60 == s' / 60 && s % 60 == s' % 60
    ensures s == s'
  {
  }

  /** `formatTime` loses nothing: two durations that show the same clock string are equal. */
  lemma FormatTimeInjective(s: nat, s': nat)
    requires FormatTime(s) == FormatTime(s')
    ensures s == s'
  {
    var m, r, m', r' := s / 60, s % 60, s' / 60, s' % 60;
    SplitAtColon(Field(m), Field(r), Field(m'), Field(r'));
    assert DecimalValue(Field(m)) == m && DecimalValue(Field(m')) == m';
    MinutesAndSecondsDetermine(s, s');
  }
}

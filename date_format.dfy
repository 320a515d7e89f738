/**
 * Zero-padded date and time fields, as the date-fns patterns `dd`, `MM`,
 * `yyyy`, `HH` and `mm` print them, and the three layouts the export uses:
 * `dd/MM/yyyy HH:mm` (diary rows), `dd/MM/yyyy` (timeline rows, the banner) and
 * `dd-MM-yyyy` (file names). The parsers are reference inverses: they read the
 * fields back from a formatted string and are not part of the exporter.
 */
module DateFormat {
  import opened Wrappers

  /** A local date and time already broken down into its fields. */
  datatype DateTime = DateTime(year: nat, month: nat, day: nat, hour: nat, minute: nat)

  /** Calendar fields in range, with a year of the common era that `yyyy` prints in four digits. */
  predicate InRange(d: DateTime) {
    1 <= d.year && 1 <= d.month <= 12 && 1 <= d.day <= 31 && d.hour < 24 && d.minute < 60 && d.year <= 9999
  }

  predicate IsDigit(c: char) {
    '0' <= c <= '9'
  }

  predicate AllDigits(s: string) {
    forall i :: 0 <= i < |s| ==> IsDigit(s[i])
  }

  function DigitChar(d: nat): (c: char)
    requires d < 10
    ensures IsDigit(c) && c as int - '0' as int == d
  {
    ('0' as int + d) as char
  }

  /** The number a string of decimal digits denotes (leading zeros allowed). */
  function Value(s: string): nat
    requires AllDigits(s)
  {
    if s == [] then 0 else 10 * Value(s[..|s| - 1]) + (s[|s| - 1] as int - '0' as int)
  }

  function Pow10(k: nat): nat {
    if k == 0 then 1 else 10 * Pow10(k - 1)
  }

  /** Decimal digits of `n` without padding, as `${n}` prints an integer. */
  function Digits(n: nat): (r: string)
    ensures 1 <= |r| && AllDigits(r) && Value(r) == n
    ensures n > 0 ==> r[0] != '0'
  {
    if n < 10 then [DigitChar(n)]
    else
      var r := Digits(n / 10) + [DigitChar(n % 10)];
      assert r[..|r| - 1] == Digits(n / 10);
      r
  }

  /** `s` with '0' characters in front until it is at least `width` long. */
  function PadZeros(s: string, width: nat): (r: string)
    ensures |r| == if |s| < width then width else |s|
    ensures r[|r| - |s|..] == s
    ensures forall i :: 0 <= i < |r| - |s| ==> r[i] == '0'
  {
    if |s| < width then seq(width - |s|, _ => '0') + s else s
  }

  lemma {:induction false} ZerosValue(z: string)
    requires forall i :: 0 <= i < |z| ==> z[i] == '0'
    ensures AllDigits(z) && Value(z) == 0
  {
    if z != [] {
      ZerosValue(z[..|z| - 1]);
    }
  }

  /** Leading zeros do not change the value of a digit string. */
  lemma {:induction false} LeadingZerosValue(z: string, s: string)
    requires forall i :: 0 <= i < |z| ==> z[i] == '0'
    requires AllDigits(s)
    ensures AllDigits(z + s) && Value(z + s) == Value(s)
  {
    if s == [] {
      assert z + s == z;
      ZerosValue(z);
    } else {
      var s' := s[..|s| - 1];
      LeadingZerosValue(z, s');
      assert (z + s)[..|z + s| - 1] == z + s';
    }
  }

  /** A number below 10^w has at most w digits. */
  lemma {:induction false} DigitsFit(n: nat, w: nat)
    requires 1 <= w && n < Pow10(w)
    ensures |Digits(n)| <= w
  {
    if n >= 10 {
      assert n / 10 < Pow10(w - 1);
      DigitsFit(n / 10, w - 1);
    }
  }

  /** A number below 10^w, padded to width w: exactly w digits denoting it. */
  lemma PaddedDigits(n: nat, w: nat)
    requires 1 <= w && n < Pow10(w)
    ensures |PadZeros(Digits(n), w)| == w
    ensures AllDigits(PadZeros(Digits(n), w)) && Value(PadZeros(Digits(n), w)) == n
  {
    DigitsFit(n, w);
    var d := Digits(n);
    var r := PadZeros(d, w);
    var k := w - |d|;
    if |d| < w {
      LeadingZerosValue(seq(k, _ => '0'), d);
    }
  }

  /** Pattern `dd`, `MM`, `HH` or `mm`. */
  function TwoDigits(n: nat): string {
    PadZeros(Digits(n), 2)
  }

  /** Pattern `yyyy`. */
  function FourDigits(n: nat): string {
    PadZeros(Digits(n), 4)
  }

  /** `dd<sep>MM<sep>yyyy`. */
  function FormatDate(d: DateTime, sep: char): string {
    TwoDigits(d.day) + [sep] + TwoDigits(d.month) + [sep] + FourDigits(d.year)
  }

  /** `HH:mm`. */
  function FormatTime(d: DateTime): string {
    TwoDigits(d.hour) + ":" + TwoDigits(d.minute)
  }

  /** `dd/MM/yyyy HH:mm`. */
  function FormatDateTime(d: DateTime): string {
    FormatDate(d, '/') + " " + FormatTime(d)
  }

  /** Reads `dd<sep>MM<sep>yyyy` back into (day, month, year). */
  function ParseDate(s: string, sep: char): Option<(nat, nat, nat)> {
    if |s| == 10 && s[2] == sep && s[5] == sep
       && AllDigits(s[..2]) && AllDigits(s[3..5]) && AllDigits(s[6..])
    then Some((Value(s[..2]), Value(s[3..5]), Value(s[6..])))
    else None
  }

  /** Reads `dd/MM/yyyy HH:mm` back into a date and time. */
  function ParseDateTime(s: string): Option<DateTime> {
    if |s| == 16 && s[10] == ' ' && s[13] == ':' && AllDigits(s[11..13]) && AllDigits(s[14..]) then
      match ParseDate(s[..10], '/')
      case Some((day, month, year)) => Some(DateTime(year, month, day, Value(s[11..13]), Value(s[14..])))
      case None => None
    else None
  }

  lemma SplitDate(a: string, b: string, c: string, sep: char)
    requires |a| == 2 && |b| == 2 && |c| == 4
    ensures var s := a + [sep] + b + [sep] + c;
      |s| == 10 && s[..2] == a && s[2] == sep && s[3..5] == b && s[5] == sep && s[6..] == c
  {
  }

  lemma SplitDateTime(a: string, b: string, c: string)
    requires |a| == 10 && |b| == 2 && |c| == 2
    ensures var s := a + " " + (b + ":" + c);
      |s| == 16 && s[..10] == a && s[10] == ' ' && s[11..13] == b && s[13] == ':' && s[14..] == c
  {
  }

  /** `dd<sep>MM<sep>yyyy` is ten characters and determines the day, month and year. */
  lemma DateRoundTrip(d: DateTime, sep: char)
    requires InRange(d)
    ensures |FormatDate(d, sep)| == 10
    ensures ParseDate(FormatDate(d, sep), sep) == Some((d.day, d.month, d.year))
  {
    assert Pow10(2) == 100 && Pow10(4) == 10000;
    PaddedDigits(d.day, 2);
    PaddedDigits(d.month, 2);
    PaddedDigits(d.year, 4);
    SplitDate(TwoDigits(d.day), TwoDigits(d.month), FourDigits(d.year), sep);
  }

  /** `dd/MM/yyyy HH:mm` is sixteen characters and determines every field. */
  lemma DateTimeRoundTrip(d: DateTime)
    requires InRange(d)
    ensures |FormatDateTime(d)| == 16
    ensures ParseDateTime(FormatDateTime(d)) == Some(d)
  {
    assert Pow10(2) == 100;
    DateRoundTrip(d, '/');
    PaddedDigits(d.hour, 2);
    PaddedDigits(d.minute, 2);
    var date, hh, mm := FormatDate(d, '/'), TwoDigits(d.hour), TwoDigits(d.minute);
    SplitDateTime(date, hh, mm);
    var s := FormatDateTime(d);
    assert ParseDate(s[..10], '/') == Some((d.day, d.month, d.year));
    assert Value(s[11..13]) == d.hour && Value(s[14..]) == d.minute;
  }
}

/**
 * Readings of the wall clock (`datetime.now()`), which the backend only ever formats into
 * identifiers: `strftime('%Y%m%d%H%M%S')` for local ticket ids and
 * `strftime('%Y%m%d%H%M%S%f')` for conversation ids. A reading is an input, never computed.
 */
module Clock {

  datatype DateTime = DateTime(year: nat, month: nat, day: nat, hour: nat, minute: nat, second: nat, microsecond: nat)

  /** The fields a `datetime` can hold, with four-digit years. */
  predicate WellFormed(t: DateTime) {
    1000 <= t.year <= 9999 && 1 <= t.month <= 12 && 1 <= t.day <= 31
    && t.hour < 24 && t.minute < 60 && t.second < 60 && t.microsecond < 1000000
  }

  type Instant = t: DateTime | WellFormed(t) witness DateTime(2000, 1, 1, 0, 0, 0, 0)

  function Pow10(n: nat): nat {
    if n == 0 then 1 else 10 * Pow10(n - 1)
  }

  predicate IsDigit(c: char) { '0' <= c <= '9' }

  predicate AllDigits(s: string) { forall i :: 0 <= i < |s| ==> IsDigit(s[i]) }

  function DigitChar(d: nat): (c: char)
    requires d < 10
    ensures IsDigit(c)
  {
    ('0' as int + d) as char
  }

  /** The value of a string of decimal digits. */
  function DigitsValue(s: string): nat
    requires AllDigits(s)
  {
    if s == [] then 0 else 10 * DigitsValue(s[..|s| - 1]) + (s[|s| - 1] as int - '0' as int)
  }

  /** `n` written in decimal with exactly `width` digits, zero-padded on the left. */
  function Pad(n: nat, width: nat): (r: string)
    requires n < Pow10(width)
    ensures |r| == width && AllDigits(r)
  {
    if width == 0 then [] else Pad(n / 10, width - 1) + [DigitChar(n % 10)]
  }

  /** Pad writes a number that reads back as itself. */
  lemma {:induction false} PadValue(n: nat, width: nat)
    requires n < Pow10(width)
    ensures DigitsValue(Pad(n, width)) == n
  {
    if width > 0 {
      PadValue(n / 10, width - 1);
      var r := Pad(n, width);
      assert r[..|r| - 1] == Pad(n / 10, width - 1);
    }
  }

  /** `%Y%m%d%H%M%S`: fourteen digits. */
  function SecondsStamp(t: Instant): (r: string)
    ensures |r| == 14 && AllDigits(r)
  {
    Pad(t.year, 4) + Pad(t.month, 2) + Pad(t.day, 2) + Pad(t.hour, 2) + Pad(t.minute, 2) + Pad(t.second, 2)
  }

  /** `%Y%m%d%H%M%S%f`: twenty digits. */
  function MicrosStamp(t: Instant): (r: string)
    ensures |r| == 20 && AllDigits(r)
  {
    SecondsStamp(t) + Pad(t.microsecond, 6)
  }

  /** Two readings agree to the second. */
  predicate SameSecond(a: DateTime, b: DateTime) {
    a.year == b.year && a.month == b.month && a.day == b.day
    && a.hour == b.hour && a.minute == b.minute && a.second == b.second
  }

  /** The seconds stamp determines the reading up to its microseconds. */
  lemma SecondsStampInjective(a: Instant, b: Instant)
    requires SecondsStamp(a) == SecondsStamp(b)
    ensures SameSecond(a, b)
  {
    var s := SecondsStamp(a);
    assert s[0..4] == Pad(a.year, 4) && s[4..6] == Pad(a.month, 2) && s[6..8] == Pad(a.day, 2);
    assert s[8..10] == Pad(a.hour, 2) && s[10..12] == Pad(a.minute, 2) && s[12..14] == Pad(a.second, 2);
    var u := SecondsStamp(b);
    assert u[0..4] == Pad(b.year, 4) && u[4..6] == Pad(b.month, 2) && u[6..8] == Pad(b.day, 2);
    assert u[8..10] == Pad(b.hour, 2) && u[10..12] == Pad(b.minute, 2) && u[12..14] == Pad(b.second, 2);
    PadValue(a.year, 4); PadValue(b.year, 4);
    PadValue(a.month, 2); PadValue(b.month, 2);
    PadValue(a.day, 2); PadValue(b.day, 2);
    PadValue(a.hour, 2); PadValue(b.hour, 2);
    PadValue(a.minute, 2); PadValue(b.minute, 2);
    PadValue(a.second, 2); PadValue(b.second, 2);
  }

  /** The microseconds stamp determines the whole reading. */
  lemma MicrosStampInjective(a: Instant, b: Instant)
    requires MicrosStamp(a) == MicrosStamp(b)
    ensures a == b
  {
    var s, u := MicrosStamp(a), MicrosStamp(b);
    assert s[..14] == SecondsStamp(a) && u[..14] == SecondsStamp(b);
    SecondsStampInjective(a, b);
    assert s[14..] == Pad(a.microsecond, 6) && u[14..] == Pad(b.microsecond, 6);
    PadValue(a.microsecond, 6);
    PadValue(b.microsecond, 6);
  }
}

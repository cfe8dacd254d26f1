/**
 * `datetime` values as the launcher formats them. The current time is
 * always passed in; nothing here reads a clock.
 */
module Timestamps {
  import opened Strings

  datatype Timestamp = Timestamp(year: nat, month: nat, day: nat, hour: nat, minute: nat, second: nat, microsecond: nat)

  /** The ranges a Python `datetime` guarantees. */
  predicate Valid(t: Timestamp) {
    1 <= t.year <= 9999 && 1 <= t.month <= 12 && 1 <= t.day <= 31
    && t.hour < 24 && t.minute < 60 && t.second < 60 && t.microsecond < 1000000
  }

  /** `t.strftime("%y%m%d_%H%M")`: two digits each of year, month, day, then `_`, hour and minute. */
  function StemStamp(t: Timestamp): (r: string)
    requires Valid(t)
    ensures |r| == 11 && r[6] == '_'
    ensures forall i :: 0 <= i < 11 && i != 6 ==> '0' <= r[i] <= '9'
  {
    Pad2(t.year % 100) + Pad2(t.month) + Pad2(t.day) + "_" + Pad2(t.hour) + Pad2(t.minute)
  }

  /** `t.strftime("%Y-%m-%d")`, years below 1000 zero-padded to four digits. */
  function DateStamp(t: Timestamp): (r: string)
    requires Valid(t)
    ensures |r| == 10 && r[4] == '-' && r[7] == '-'
  {
    Pad4(t.year) + "-" + Pad2(t.month) + "-" + Pad2(t.day)
  }

  /** `t.isoformat()`: date, `T`, time, and `.ffffff` only when the microseconds are not zero. */
  function IsoFormat(t: Timestamp): (r: string)
    requires Valid(t)
    ensures |r| == (if t.microsecond == 0 then 19 else 26)
    ensures r[10] == 'T' && r[13] == ':' && r[16] == ':'
  {
    DateStamp(t) + TimeOfDay(t) + Fraction(t)
  }

  /** `T`, then hour, minute and second, two digits each and separated by `:`. */
  function TimeOfDay(t: Timestamp): (r: string)
    requires Valid(t)
    ensures |r| == 9 && r[0] == 'T' && r[3] == ':' && r[6] == ':' && '0' <= r[8] <= '9'
  {
    "T" + Pad2(t.hour) + ":" + Pad2(t.minute) + ":" + Pad2(t.second)
  }

  /** `.` and six digits of microseconds, or nothing when there are none. */
  function Fraction(t: Timestamp): (r: string)
    requires Valid(t)
    ensures (t.microsecond == 0 ==> r == []) && (t.microsecond != 0 ==> |r| == 7 && r[0] == '.' && '0' <= r[6] <= '9')
  {
    if t.microsecond == 0 then "" else "." + Pad6(t.microsecond)
  }

  /** Two decimal digits of a number below 100. */
  function Pad2(n: nat): (r: string)
    requires n < 100
    ensures |r| == 2 && forall i :: 0 <= i < 2 ==> '0' <= r[i] <= '9'
  {
    [DigitChar(n / 10), DigitChar(n % 10)]
  }

  /** Four decimal digits of a number below 10000. */
  function Pad4(n: nat): (r: string)
    requires n < 10000
    ensures |r| == 4 && forall i :: 0 <= i < 4 ==> '0' <= r[i] <= '9'
  {
    Pad2(n / 100) + Pad2(n % 100)
  }

  /** Six decimal digits of a number below 1000000. */
  function Pad6(n: nat): (r: string)
    requires n < 1000000
    ensures |r| == 6 && forall i :: 0 <= i < 6 ==> '0' <= r[i] <= '9'
  {
    Pad2(n / 10000) + Pad4(n % 10000)
  }

  /** The characters an ISO timestamp is made of. */
  predicate StampChar(c: char) {
    ('0' <= c <= '9') || c == '-' || c == 'T' || c == ':' || c == '.'
  }

  predicate StampChars(s: string) {
    forall i :: 0 <= i < |s| ==> StampChar(s[i])
  }

  lemma {:induction false} StampCharsConcat(a: string, b: string)
    requires StampChars(a) && StampChars(b)
    ensures StampChars(a + b)
  {
    assert forall i :: 0 <= i < |a + b| ==> (a + b)[i] == if i < |a| then a[i] else b[i - |a|];
  }

  lemma {:induction false} DateStampChars(t: Timestamp)
    requires Valid(t)
    ensures StampChars(DateStamp(t))
  {
    var y, m, d := Pad4(t.year), Pad2(t.month), Pad2(t.day);
    assert StampChars(y) && StampChars(m) && StampChars(d) && StampChars("-");
    StampCharsConcat(y, "-");
    StampCharsConcat(y + "-", m);
    StampCharsConcat(y + "-" + m, "-");
    StampCharsConcat(y + "-" + m + "-", d);
  }

  lemma {:induction false} TimeChars(t: Timestamp)
    requires Valid(t)
    ensures StampChars(TimeOfDay(t))
  {
    var h, m, s := Pad2(t.hour), Pad2(t.minute), Pad2(t.second);
    assert StampChars(h) && StampChars(m) && StampChars(s) && StampChars("T") && StampChars(":");
    StampCharsConcat("T", h);
    StampCharsConcat("T" + h, ":");
    StampCharsConcat("T" + h + ":", m);
    StampCharsConcat("T" + h + ":" + m, ":");
    StampCharsConcat("T" + h + ":" + m + ":", s);
  }

  /** `isoformat()` gives digits and separators only, and ends in a digit. */
  lemma {:induction false} IsoFormatChars(t: Timestamp)
    requires Valid(t)
    ensures StampChars(IsoFormat(t))
    ensures '0' <= IsoFormat(t)[|IsoFormat(t)| - 1] <= '9'
  {
    var d, tm, f := DateStamp(t), TimeOfDay(t), Fraction(t);
    DateStampChars(t);
    TimeChars(t);
    if t.microsecond != 0 {
      var u := Pad6(t.microsecond);
      assert StampChars(".") && StampChars(u);
      StampCharsConcat(".", u);
    }
    StampCharsConcat(d, tm);
    StampCharsConcat(d + tm, f);
    var r := d + tm + f;
    if f == [] {
      assert r[|r| - 1] == tm[8];
    } else {
      assert r[|r| - 1] == f[6];
    }
  }
}

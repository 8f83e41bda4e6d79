/**
 * UTC instants and the two ways the extractors print them: `isoformat()` of a
 * timezone-aware datetime, and `date()` used in backfill file names.
 */
module Clock {
  import opened Frames

  /** A timezone-aware UTC datetime, as microseconds since 1970-01-01T00:00:00+00:00. */
  type Instant = int

  const SECOND: int := 1_000_000
  const DAY: int := 86_400 * SECOND

  /** 2024-01-01T00:00:00+00:00, where the historical backfill starts. */
  const BACKFILL_START: Instant := 19723 * DAY

  datatype CivilDate = CivilDate(year: int, month: int, day: int)

  /** The proleptic Gregorian date of a day count since 1970-01-01. */
  function CivilFromDays(days: int): CivilDate {
    var z := days + 719468;
    var era := z / 146097;
    var doe := z - era * 146097;
    var yoe := (doe - doe / 1460 + doe / 36524 - doe / 146096) / 365;
    var doy := doe - (365 * yoe + yoe / 4 - yoe / 100);
    var mp := (5 * doy + 2) / 153;
    var d := doy - (153 * mp + 2) / 5 + 1;
    var m := if mp < 10 then mp + 3 else mp - 9;
    CivilDate(yoe + era * 400 + (if m <= 2 then 1 else 0), m, d)
  }

  /** Left-pads with zeros to the given width, as `%0Nd` does. */
  function Pad(s: string, width: nat): (r: string)
    ensures |r| == if |s| >= width then |s| else width
    ensures r == Zeros(|r| - |s|) + s
    decreases width - |s|
  {
    if |s| >= width then
      assert s == Zeros(0) + s;
      s
    else
      var r := Pad("0" + s, width);
      ZerosThenZero(|r| - |s| - 1, s);
      r
  }

  /** `n` zero digits. */
  function Zeros(n: nat): (z: string)
    ensures |z| == n && forall i :: 0 <= i < n ==> z[i] == '0'
  {
    seq(n, _ => '0')
  }

  lemma ZerosThenZero(n: nat, s: string)
    ensures Zeros(n) + ("0" + s) == Zeros(n + 1) + s
  {
    assert Zeros(n) + ("0" + s) == (Zeros(n) + "0") + s;
    assert Zeros(n) + "0" == Zeros(n + 1);
  }

  function Pad2(n: int): string { Pad(Decimal(n), 2) }

  /** `t.date()` printed: YYYY-MM-DD. */
  function DateString(t: Instant): string {
    var c := CivilFromDays(t / DAY);
    Pad(Decimal(c.year), 4) + "-" + Pad2(c.month) + "-" + Pad2(c.day)
  }

  /** `t.isoformat()` of an aware UTC datetime; the fraction is printed only when non-zero. */
  function IsoFormat(t: Instant): (r: string)
    ensures |r| >= 6 && r[|r| - 6..] == "+00:00"
  {
    var us := t % DAY;
    var secs := us / SECOND;
    var frac := us % SECOND;
    DateString(t) + "T" + Pad2(secs / 3600) + ":" + Pad2(secs / 60 % 60) + ":" + Pad2(secs % 60)
      + (if frac == 0 then "" else "." + Pad(Decimal(frac), 6))
      + "+00:00"
  }

  /**
   * `t.isoformat() + "Z"`, the form the extractors send as `start_date` and
   * `end_date`: on an aware datetime it carries both an offset and a "Z".
   */
  function ApiTimestamp(t: Instant): (r: string)
    ensures |r| >= 7 && r[|r| - 7..] == "+00:00Z"
  {
    IsoFormat(t) + "Z"
  }

  lemma CivilOfBackfillStart()
    ensures CivilFromDays(BACKFILL_START / DAY) == CivilDate(2024, 1, 1)
  {
    assert BACKFILL_START / DAY == 19723;
    var z := 19723 + 719468;
    assert z / 146097 == 5;
    assert z - 5 * 146097 == 8706;
    assert (8706 - 8706 / 1460 + 8706 / 36524 - 8706 / 146096) / 365 == 23;
    assert 8706 - (365 * 23 + 23 / 4 - 23 / 100) == 306;
    assert (5 * 306 + 2) / 153 == 10;
  }

  lemma BackfillStartDate()
    ensures DateString(BACKFILL_START) == "2024-01-01"
  {
    CivilOfBackfillStart();
    DecimalOf2024();
    assert Pad(Decimal(2024), 4) == "2024";
    assert Pad2(1) == "01";
  }

  lemma DecimalOf2024()
    ensures Decimal(2024) == "2024"
  {
    assert Digit(2) == '2' && Digit(0) == '0' && Digit(4) == '4';
    assert NatDecimal(2) == ['2'];
    assert NatDecimal(20) == NatDecimal(2) + ['0'];
    assert NatDecimal(202) == NatDecimal(20) + ['2'];
    assert NatDecimal(2024) == NatDecimal(202) + ['4'];
    assert ['2'] + ['0'] + ['2'] + ['4'] == "2024";
  }

  lemma Pad2Zero()
    ensures Pad2(0) == "00"
  {
    assert Decimal(0) == "0";
  }

  /** At midnight isoformat prints a zero time and no fraction. */
  lemma IsoFormatAtMidnight(t: Instant)
    requires t % DAY == 0
    ensures IsoFormat(t) == DateString(t) + "T00:00:00+00:00"
  {
    Pad2Zero();
    var us := t % DAY;
    assert us == 0;
    var secs := us / SECOND;
    assert secs == 0 && us % SECOND == 0;
    assert secs / 3600 == 0 && secs / 60 % 60 == 0 && secs % 60 == 0;
    var d := DateString(t);
    assert IsoFormat(t) == d + "T" + "00" + ":" + "00" + ":" + "00" + "" + "+00:00";
    ZeroTimeText(d);
  }

  lemma ZeroTimeText(d: string)
    ensures d + "T" + "00" + ":" + "00" + ":" + "00" + "" + "+00:00" == d + "T00:00:00+00:00"
  {
    assert "T" + "00" + ":" + "00" + ":" + "00" + "" + "+00:00" == "T00:00:00+00:00";
  }

  /**
   * A midnight instant is sent as its date, a zero time, an offset and a "Z"
   * (the backfill's first `start_date` is "2024-01-01T00:00:00+00:00Z").
   */
  lemma ApiTimestampAtMidnight(t: Instant)
    requires t % DAY == 0
    ensures ApiTimestamp(t) == DateString(t) + "T00:00:00+00:00Z"
  {
    IsoFormatAtMidnight(t);
  }

  lemma {:induction false} NatDecimalIsDigits(n: nat)
    ensures forall i :: 0 <= i < |NatDecimal(n)| ==> '0' <= NatDecimal(n)[i] <= '9'
    decreases n
  {
    if n >= 10 {
      NatDecimalIsDigits(n / 10);
    }
  }

  lemma {:induction false} PadKeepsNoSlash(s: string, width: nat)
    requires '/' !in s
    ensures '/' !in Pad(s, width)
    decreases width - |s|
  {
    if |s| < width {
      PadKeepsNoSlash("0" + s, width);
    }
  }

  /** A printed date is digits and dashes only: it has no path separator. */
  lemma DateStringHasNoSlash(t: Instant)
    ensures '/' !in DateString(t)
  {
    var c := CivilFromDays(t / DAY);
    forall n: int
      ensures '/' !in Decimal(n)
    {
      if n < 0 {
        NatDecimalIsDigits(-n);
      } else {
        NatDecimalIsDigits(n);
      }
    }
    PadKeepsNoSlash(Decimal(c.year), 4);
    PadKeepsNoSlash(Decimal(c.month), 2);
    PadKeepsNoSlash(Decimal(c.day), 2);
  }
}

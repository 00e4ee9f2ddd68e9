/**
 * Trading days, the two daily evaluation times and the API timestamp format.
 *
 * Dates are day numbers (day 0 is 1970-01-01, a Thursday). A generated evaluation time is a
 * US/Eastern wall-clock reading `Stamp(day, hour)`; turning it into a UTC civil date-time is
 * the time-zone database's job and enters the planners as a parameter.
 */
module Calendar {

  import opened Wrappers

  // ---------------------------------------------------------------- day numbers

  /** Python's `date.weekday()`: Monday is 0, Sunday is 6. */
  function Weekday(day: int): (w: nat)
    ensures w < 7
  {
    (day + 3) % 7
  }

  predicate IsLeapYear(y: int) {
    y % 4 == 0 && (y % 100 != 0 || y % 400 == 0)
  }

  /** Days from 0000-03-01 to March 1st of year `y + 1`, shifted so that the count is proleptic Gregorian. */
  function DaysBeforeMarch(y: int): int {
    365 * y + y / 4 - y / 100 + y / 400
  }

  /** The day number of the proleptic Gregorian date y-m-d (the year is taken to start on March 1st). */
  function DaysFromCivil(y: int, m: int, d: int): int
    requires 1 <= m <= 12 && 1 <= d <= 31
  {
    var y' := if m <= 2 then y - 1 else y;
    var mp := if m > 2 then m - 3 else m + 9;
    DaysBeforeMarch(y') + (153 * mp + 2) / 5 + d - 1 - 719468
  }

  lemma Epoch()
    ensures DaysFromCivil(1970, 1, 1) == 0
    ensures Weekday(DaysFromCivil(1970, 1, 1)) == 3
  {
  }

  /** `datetime(y, 1, 1)` and `datetime(y, 12, 31)`, the range the first bulk script evaluates. */
  function EvaluationYear(y: int): (r: (int, int))
  {
    (DaysFromCivil(y, 1, 1), DaysFromCivil(y, 12, 31))
  }

  /**
   * `get_start_and_end_date` of the second bulk script: August 1st to December 31st of `y`, the
   * end cut at `today` (the date of `datetime.now()`; a later time on that day changes nothing,
   * since whole days are counted from the start).
   */
  function RecentWindow(y: int, today: int): (r: (int, int))
    ensures r.0 == DaysFromCivil(y, 8, 1)
    ensures r.1 <= DaysFromCivil(y, 12, 31) && r.1 <= today
    ensures r.1 == DaysFromCivil(y, 12, 31) || r.1 == today
  {
    var end := DaysFromCivil(y, 12, 31);
    (DaysFromCivil(y, 8, 1), if today < end then today else end)
  }

  /** A calendar year has 366 days in a leap year and 365 otherwise. */
  lemma YearLength(y: int)
    ensures EvaluationYear(y).1 - EvaluationYear(y).0 + 1 == if IsLeapYear(y) then 366 else 365
  {
    assert DaysFromCivil(y, 1, 1) == DaysBeforeMarch(y - 1) + 306 - 719468;
    assert DaysFromCivil(y, 12, 31) == DaysBeforeMarch(y) + 305 - 719468;
    MarchToMarch(y);
  }

  /** From March 1st of `y` to March 1st of `y + 1` there are 366 days when `y` is a leap year, else 365. */
  lemma MarchToMarch(y: int)
    ensures DaysBeforeMarch(y) - DaysBeforeMarch(y - 1) == if IsLeapYear(y) then 366 else 365
  {
    assert y / 4 - (y - 1) / 4 == if y % 4 == 0 then 1 else 0;
    assert y / 100 - (y - 1) / 100 == if y % 100 == 0 then 1 else 0;
    assert y / 400 - (y - 1) / 400 == if y % 400 == 0 then 1 else 0;
  }

  /**
   * `[d for d in (start + i for i in range(end - start + 1)) if d.weekday() < 5]`: the weekdays
   * from `start` to `end` inclusive, in order.
   */
  function TradingDays(start: int, end: int): (r: seq<int>)
    decreases end - start
  {
    if start > end then []
    else if Weekday(start) < 5 then [start] + TradingDays(start + 1, end)
    else TradingDays(start + 1, end)
  }

  /**
   * Every listed day lies in the range and is a weekday, every weekday of the range is listed,
   * and the list is strictly increasing.
   */
  lemma {:induction false} TradingDaysSpec(start: int, end: int)
    ensures forall k :: 0 <= k < |TradingDays(start, end)| ==>
      start <= TradingDays(start, end)[k] <= end && Weekday(TradingDays(start, end)[k]) < 5
    ensures forall d :: start <= d <= end && Weekday(d) < 5 ==> d in TradingDays(start, end)
    ensures forall j, k :: 0 <= j < k < |TradingDays(start, end)| ==> TradingDays(start, end)[j] < TradingDays(start, end)[k]
    decreases end - start
  {
    if start <= end {
      TradingDaysSpec(start + 1, end);
      var rest := TradingDays(start + 1, end);
      var r := TradingDays(start, end);
      if Weekday(start) < 5 {
        assert r == [start] + rest;
        forall k | 0 <= k < |r| ensures start <= r[k] <= end && Weekday(r[k]) < 5 {
          if k > 0 { assert r[k] == rest[k - 1]; }
        }
        forall j, k | 0 <= j < k < |r| ensures r[j] < r[k] {
          assert r[k] == rest[k - 1];
          if j > 0 { assert r[j] == rest[j - 1]; }
        }
      } else {
        assert r == rest;
      }
    }
  }

  // ---------------------------------------------------------------- evaluation times

  /** A US/Eastern wall-clock time on a day (minutes are always zero here). */
  datatype Stamp = Stamp(day: int, hour: nat)

  /** Position on the time line, in hours; Eastern wall-clock order is instant order for these hours. */
  function StampKey(t: Stamp): int {
    t.day * 24 + t.hour
  }

  /** 9:00 and 16:00 on each day, in day order. */
  function TimestampsOf(days: seq<int>): (r: seq<Stamp>)
    decreases |days|
  {
    if days == [] then [] else [Stamp(days[0], 9), Stamp(days[0], 16)] + TimestampsOf(days[1..])
  }

  lemma {:induction false} TimestampsAppend(days: seq<int>, d: int)
    ensures TimestampsOf(days + [d]) == TimestampsOf(days) + [Stamp(d, 9), Stamp(d, 16)]
    decreases |days|
  {
    if days == [] {
      assert days + [d] == [d];
    } else {
      assert (days + [d])[1..] == days[1..] + [d];
      TimestampsAppend(days[1..], d);
    }
  }

  /** Each day yields exactly two times, 9:00 then 16:00, at positions 2k and 2k + 1. */
  lemma {:induction false} TimestampsAt(days: seq<int>, k: nat)
    requires k < |days|
    ensures |TimestampsOf(days)| == 2 * |days|
    ensures TimestampsOf(days)[2 * k] == Stamp(days[k], 9)
    ensures TimestampsOf(days)[2 * k + 1] == Stamp(days[k], 16)
    decreases k
  {
    if k > 0 {
      TimestampsAt(days[1..], k - 1);
    } else {
      TimestampsLength(days);
    }
  }

  lemma {:induction false} TimestampsLength(days: seq<int>)
    ensures |TimestampsOf(days)| == 2 * |days|
    decreases |days|
  {
    if days != [] {
      TimestampsLength(days[1..]);
    }
  }

  /** Increasing days give strictly increasing times. */
  lemma {:induction false} TimestampsIncreasing(days: seq<int>)
    requires forall j, k :: 0 <= j < k < |days| ==> days[j] < days[k]
    ensures forall j, k :: 0 <= j < k < |TimestampsOf(days)| ==>
      StampKey(TimestampsOf(days)[j]) < StampKey(TimestampsOf(days)[k])
    decreases |days|
  {
    if days != [] {
      TimestampsIncreasing(days[1..]);
      TimestampsLength(days[1..]);
      var rest := TimestampsOf(days[1..]);
      forall k | 0 <= k < |rest| ensures StampKey(rest[k]) >= days[0] * 24 + 24 {
        TimestampsDayBound(days[1..], days[0] + 1, k);
      }
    }
  }

  lemma {:induction false} TimestampsDayBound(days: seq<int>, low: int, k: nat)
    requires forall j :: 0 <= j < |days| ==> low <= days[j]
    requires k < |TimestampsOf(days)|
    ensures low * 24 <= StampKey(TimestampsOf(days)[k])
    decreases |days|
  {
    if k >= 2 {
      TimestampsDayBound(days[1..], low, k - 2);
    }
  }

  /** `generate_timestamps`: appends the 9:00 and the 16:00 reading of every trading day. */
  method GenerateTimestamps(tradingDays: seq<int>) returns (timestamps: seq<Stamp>)
    ensures timestamps == TimestampsOf(tradingDays)
  {
    timestamps := [];
    var k := 0;
    while k < |tradingDays|
      invariant 0 <= k <= |tradingDays|
      invariant timestamps == TimestampsOf(tradingDays[..k])
    {
      var day := tradingDays[k];
      timestamps := timestamps + [Stamp(day, 9)];
      timestamps := timestamps + [Stamp(day, 16)];
      TimestampsAppend(tradingDays[..k], day);
      assert tradingDays[..k + 1] == tradingDays[..k] + [day];
      k := k + 1;
    }
    assert tradingDays[..k] == tradingDays;
  }

  // ---------------------------------------------------------------- API timestamp format

  /** A UTC civil date-time, the fields of a Python `datetime` after `astimezone(UTC)`. */
  datatype DateTime = DateTime(year: nat, month: nat, day: nat, hour: nat, minute: nat, second: nat, microsecond: nat)

  predicate ValidDateTime(t: DateTime) {
    && 1 <= t.year <= 9999 && 1 <= t.month <= 12 && 1 <= t.day <= 31
    && t.hour < 24 && t.minute < 60 && t.second < 60 && t.microsecond < 1_000_000
  }

  function DigitChar(v: nat): (c: char)
    requires v < 10
    ensures '0' <= c <= '9'
  {
    (v + '0' as int) as char
  }

  /** Decimal notation without leading zeros. */
  function Dec(v: nat): (r: string)
    decreases v
  {
    if v < 10 then [DigitChar(v)] else Dec(v / 10) + [DigitChar(v % 10)]
  }

  function Zeros(k: nat): (r: string)
    ensures |r| == k && forall j :: 0 <= j < k ==> r[j] == '0'
  {
    seq(k, j => '0')
  }

  /** Decimal notation padded with zeros to at least `w` characters, as strftime's `%m`, `%f`, ... */
  function Pad(v: nat, w: nat): (r: string)
  {
    var d := Dec(v);
    if |d| >= w then d else Zeros(w - |d|) + d
  }

  /**
   * `strftime('%Y-%m-%dT%H:%M:%S.%f')`. The year is written without padding here; whether
   * Python pads years below 1000 to four digits depends on its version and platform, and years
   * from 1000 on are four digits either way. The other fields are zero-padded.
   */
  function Strftime(t: DateTime): string {
    Dec(t.year) + Middle(Pad(t.month, 2), Pad(t.day, 2), Pad(t.hour, 2), Pad(t.minute, 2), Pad(t.second, 2))
      + Pad(t.microsecond, 6)
  }

  /** The text between the year and the fraction digits: '-MM-DDTHH:MM:SS.'. */
  function Middle(mo: string, d: string, h: string, mi: string, se: string): string {
    "-" + mo + "-" + d + "T" + h + ":" + mi + ":" + se + "."
  }

  /** `format_timestamp_for_api`: the strftime text with its last three characters dropped, then 'Z'. */
  function FormatTimestampForApi(t: DateTime): (r: string)
  {
    var s := Strftime(t);
    (if |s| >= 3 then s[..|s| - 3] else []) + "Z"
  }

  /** The fields `format_timestamp_for_api` keeps: microseconds truncated to whole milliseconds. */
  function Truncated(t: DateTime): DateTime {
    t.(microsecond := t.microsecond / 1000 * 1000)
  }

  predicate IsDigits(s: string) {
    |s| > 0 && forall k :: 0 <= k < |s| ==> '0' <= s[k] <= '9'
  }

  /** The number a string of digits denotes. */
  function Value(s: string): nat
    requires forall k :: 0 <= k < |s| ==> '0' <= s[k] <= '9'
    decreases |s|
  {
    if s == [] then 0 else Value(s[..|s| - 1]) * 10 + (s[|s| - 1] as int - '0' as int)
  }

  /** Reads back `YYYY-MM-DDTHH:MM:SS.mmmZ` (the year may have any number of digits). */
  function ParseApiTimestamp(s: string): (r: Option<DateTime>)
  {
    if |s| < 21 then None
    else
      var y, f := s[..|s| - 20], s[|s| - 20..];
      if IsDigits(y) && f[0] == '-' && IsDigits(f[1..3]) && f[3] == '-' && IsDigits(f[4..6]) && f[6] == 'T'
         && IsDigits(f[7..9]) && f[9] == ':' && IsDigits(f[10..12]) && f[12] == ':' && IsDigits(f[13..15])
         && f[15] == '.' && IsDigits(f[16..19]) && f[19] == 'Z'
      then Some(DateTime(Value(y), Value(f[1..3]), Value(f[4..6]), Value(f[7..9]), Value(f[10..12]),
                         Value(f[13..15]), Value(f[16..19]) * 1000))
      else None
  }

  function Pow10(w: nat): nat
  {
    if w == 0 then 1 else 10 * Pow10(w - 1)
  }

  lemma {:induction false} DecDigits(v: nat)
    ensures IsDigits(Dec(v)) && Value(Dec(v)) == v
    decreases v
  {
    if v >= 10 {
      DecDigits(v / 10);
      var d := Dec(v);
      assert d[..|d| - 1] == Dec(v / 10);
    }
  }

  lemma {:induction false} DecLength(v: nat, w: nat)
    requires w >= 1
    ensures |Dec(v)| <= w <==> v < Pow10(w)
    decreases v
  {
    if v >= 10 {
      if w >= 2 {
        DecLength(v / 10, w - 1);
      } else {
        DecLength(v / 10, 1);
      }
    } else {
      PowPositive(w);
    }
  }

  lemma {:induction false} PowPositive(w: nat)
    ensures Pow10(w) >= 1
    ensures w >= 1 ==> Pow10(w) >= 10
    decreases w
  {
    if w > 0 {
      PowPositive(w - 1);
    }
  }

  lemma {:induction false} ValueZeros(k: nat, t: string)
    requires forall j :: 0 <= j < |t| ==> '0' <= t[j] <= '9'
    ensures forall j :: 0 <= j < |Zeros(k) + t| ==> '0' <= (Zeros(k) + t)[j] <= '9'
    ensures Value(Zeros(k) + t) == Value(t)
    decreases |t|
  {
    var s := Zeros(k) + t;
    if t == [] {
      assert s == Zeros(k);
      ValueAllZeros(k);
    } else {
      var t' := t[..|t| - 1];
      assert s[..|s| - 1] == Zeros(k) + t';
      ValueZeros(k, t');
    }
  }

  lemma {:induction false} ValueAllZeros(k: nat)
    ensures Value(Zeros(k)) == 0
    decreases k
  {
    if k > 0 {
      assert Zeros(k)[..k - 1] == Zeros(k - 1);
      ValueAllZeros(k - 1);
    }
  }

  /** A padded field reads back as its value, and has exactly `w` characters when the value fits. */
  lemma PadDigits(v: nat, w: nat)
    requires w >= 1 && v < Pow10(w)
    ensures IsDigits(Pad(v, w)) && Value(Pad(v, w)) == v && |Pad(v, w)| == w
  {
    DecDigits(v);
    DecLength(v, w);
    if |Dec(v)| < w {
      ValueZeros(w - |Dec(v)|, Dec(v));
    }
  }

  /** Peeling the last digit of a padded field. */
  lemma PadStep(u: nat, w: nat)
    requires w >= 1
    ensures Pad(u, w + 1) == Pad(u / 10, w) + [DigitChar(u % 10)]
  {
    if u >= 10 {
      assert Dec(u) == Dec(u / 10) + [DigitChar(u % 10)];
      if |Dec(u)| < w + 1 {
        assert Zeros(w + 1 - |Dec(u)|) == Zeros(w - |Dec(u / 10)|);
      }
    } else {
      assert Dec(u / 10) == "0";
      assert Zeros(w) == Zeros(w - 1) + "0";
    }
  }

  /** Dropping the last three of six microsecond digits leaves the three millisecond digits. */
  lemma MillisPrefix(u: nat)
    requires u < 1_000_000
    ensures |Pad(u, 6)| == 6
    ensures Pad(u, 6)[..3] == Pad(u / 1000, 3)
  {
    PadStep(u, 5);
    PadStep(u / 10, 4);
    PadStep(u / 100, 3);
    assert u / 10 / 10 == u / 100 && u / 100 / 10 == u / 1000;
    assert Pow10(3) == 1000 && Pow10(6) == 1_000_000;
    PadDigits(u / 1000, 3);
    PadDigits(u, 6);
  }

  /** The formatter's output, field by field: 'Y-MM-DDTHH:MM:SS.mmmZ'. */
  lemma FormatShape(t: DateTime)
    requires ValidDateTime(t)
    ensures FormatTimestampForApi(t) == Dec(t.year) + Tail(Pad(t.month, 2), Pad(t.day, 2), Pad(t.hour, 2),
      Pad(t.minute, 2), Pad(t.second, 2), Pad(t.microsecond / 1000, 3))
  {
    MillisPrefix(t.microsecond);
    var mid := Middle(Pad(t.month, 2), Pad(t.day, 2), Pad(t.hour, 2), Pad(t.minute, 2), Pad(t.second, 2));
    DropMicros(Dec(t.year), mid, Pad(t.microsecond, 6), Pad(t.microsecond / 1000, 3));
  }

  lemma DropMicros(y: string, mid: string, p6: string, ms: string)
    requires |p6| == 6 && p6[..3] == ms
    ensures var s := y + mid + p6;
      (if |s| >= 3 then s[..|s| - 3] else []) + "Z" == y + ((mid + ms) + "Z")
  {
    var s := y + mid + p6;
    assert s[..|s| - 3] == (y + mid) + p6[..3];
  }

  /** A four-digit year gives the 24-character RFC 3339 form 'YYYY-MM-DDTHH:MM:SS.mmmZ'. */
  lemma FormatLength(t: DateTime)
    requires ValidDateTime(t) && 1000 <= t.year
    ensures |FormatTimestampForApi(t)| == 24
  {
    FormatShape(t);
    FieldsFit(t);
    assert Pow10(4) == 10000;
    DecLength(t.year, 4);
    DecLength(t.year, 3);
    assert Pow10(3) == 1000;
  }

  lemma FieldsFit(t: DateTime)
    requires ValidDateTime(t)
    ensures |Pad(t.month, 2)| == 2 && |Pad(t.day, 2)| == 2 && |Pad(t.hour, 2)| == 2
    ensures |Pad(t.minute, 2)| == 2 && |Pad(t.second, 2)| == 2 && |Pad(t.microsecond / 1000, 3)| == 3
    ensures IsDigits(Pad(t.month, 2)) && IsDigits(Pad(t.day, 2)) && IsDigits(Pad(t.hour, 2))
    ensures IsDigits(Pad(t.minute, 2)) && IsDigits(Pad(t.second, 2)) && IsDigits(Pad(t.microsecond / 1000, 3))
    ensures Value(Pad(t.month, 2)) == t.month && Value(Pad(t.day, 2)) == t.day && Value(Pad(t.hour, 2)) == t.hour
    ensures Value(Pad(t.minute, 2)) == t.minute && Value(Pad(t.second, 2)) == t.second
    ensures Value(Pad(t.microsecond / 1000, 3)) == t.microsecond / 1000
  {
    assert Pow10(2) == 100 && Pow10(3) == 1000;
    PadDigits(t.month, 2);
    PadDigits(t.day, 2);
    PadDigits(t.hour, 2);
    PadDigits(t.minute, 2);
    PadDigits(t.second, 2);
    PadDigits(t.microsecond / 1000, 3);
  }

  /** The fixed 20-character tail of an API timestamp, built from its field texts. */
  function Tail(mo: string, d: string, h: string, mi: string, se: string, ms: string): string {
    Middle(mo, d, h, mi, se) + ms + "Z"
  }

  lemma TailSlices(mo: string, d: string, h: string, mi: string, se: string, ms: string)
    requires |mo| == 2 && |d| == 2 && |h| == 2 && |mi| == 2 && |se| == 2 && |ms| == 3
    ensures var f := Tail(mo, d, h, mi, se, ms);
      && |f| == 20 && f[0] == '-' && f[3] == '-' && f[6] == 'T' && f[9] == ':' && f[12] == ':' && f[15] == '.' && f[19] == 'Z'
      && f[1..3] == mo && f[4..6] == d && f[7..9] == h && f[10..12] == mi && f[13..15] == se && f[16..19] == ms
  {
    var f := Tail(mo, d, h, mi, se, ms);
    assert f == ['-', mo[0], mo[1], '-', d[0], d[1], 'T', h[0], h[1], ':', mi[0], mi[1], ':', se[0], se[1], '.',
      ms[0], ms[1], ms[2], 'Z'];
  }

  lemma ParseLayout(y: string, f: string)
    requires IsDigits(y) && |f| == 20
    requires f[0] == '-' && f[3] == '-' && f[6] == 'T' && f[9] == ':' && f[12] == ':' && f[15] == '.' && f[19] == 'Z'
    requires IsDigits(f[1..3]) && IsDigits(f[4..6]) && IsDigits(f[7..9]) && IsDigits(f[10..12])
    requires IsDigits(f[13..15]) && IsDigits(f[16..19])
    ensures ParseApiTimestamp(y + f) == Some(DateTime(Value(y), Value(f[1..3]), Value(f[4..6]), Value(f[7..9]),
      Value(f[10..12]), Value(f[13..15]), Value(f[16..19]) * 1000))
  {
    var s := y + f;
    assert s[..|s| - 20] == y && s[|s| - 20..] == f;
  }

  /** Reading the API string back gives the date-time with its microseconds cut to milliseconds. */
  lemma FormatRoundTrip(t: DateTime)
    requires ValidDateTime(t)
    ensures ParseApiTimestamp(FormatTimestampForApi(t)) == Some(Truncated(t))
  {
    FormatShape(t);
    FieldsFit(t);
    DecDigits(t.year);
    var mo, d, h, mi, se, ms := Pad(t.month, 2), Pad(t.day, 2), Pad(t.hour, 2), Pad(t.minute, 2), Pad(t.second, 2), Pad(t.microsecond / 1000, 3);
    TailSlices(mo, d, h, mi, se, ms);
    ParseLayout(Dec(t.year), Tail(mo, d, h, mi, se, ms));
  }
}

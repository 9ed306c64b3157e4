/**
 * Calendar arithmetic and the date-string parsers the services rely on:
 * `datetime.fromisoformat` after the 'Z' replacement (`app.py`) and the two
 * `strptime` layouts of `datetime_to_timestamp` (`part1/mcp_server.py`).
 *
 * Day numbers follow CPython's `_ymd2ord` (day 1 is 0001-01-01); the Unix
 * epoch 1970-01-01 is day 719163. Converting a wall-clock time without an
 * offset goes through the host's time zone, which is the parameter `local`.
 */
module CivilTime {
  import opened Wrappers
  import opened PyText

  datatype Date = Date(year: int, month: int, day: int)

  datatype TimeOfDay = TimeOfDay(hour: int, minute: int, second: int)

  const Midnight := TimeOfDay(0, 0, 0)

  predicate IsLeap(y: int) {
    y % 4 == 0 && (y % 100 != 0 || y % 400 == 0)
  }

  function DaysInMonth(y: int, m: int): int
    requires 1 <= m <= 12
  {
    if m == 2 then (if IsLeap(y) then 29 else 28)
    else if m == 4 || m == 6 || m == 9 || m == 11 then 30
    else 31
  }

  /** A date `datetime` accepts: years 1 to 9999, real months and days. */
  predicate ValidDate(d: Date) {
    1 <= d.year <= 9999 && 1 <= d.month <= 12 && 1 <= d.day <= DaysInMonth(d.year, d.month)
  }

  predicate ValidTime(t: TimeOfDay) {
    0 <= t.hour <= 23 && 0 <= t.minute <= 59 && 0 <= t.second <= 59
  }

  /** Days before the first of each month in a common year (CPython's `_DAYS_BEFORE_MONTH`). */
  const DaysBeforeMonthTable: seq<int> := [0, 31, 59, 90, 120, 151, 181, 212, 243, 273, 304, 334]

  function DaysBeforeMonth(y: int, m: int): int
    requires 1 <= m <= 12
  {
    DaysBeforeMonthTable[m - 1] + (if m > 2 && IsLeap(y) then 1 else 0)
  }

  /** Days in the years before year `y` (CPython's `_days_before_year`). */
  function DaysBeforeYear(y: int): int
    requires y >= 1
  {
    var p := y - 1;
    p * 365 + p / 4 - p / 100 + p / 400
  }

  /** The day number of `d`, 0001-01-01 being day 1 (CPython's `_ymd2ord`). */
  function Ordinal(d: Date): int
    requires ValidDate(d)
  {
    DaysBeforeYear(d.year) + DaysBeforeMonth(d.year, d.month) + d.day
  }

  /** The day number of 1970-01-01. */
  const UnixEpochOrdinal: int := 719163

  /** Each year contributes its own length to the day count. */
  lemma YearLength(y: int)
    requires y >= 1
    ensures DaysBeforeYear(y + 1) == DaysBeforeYear(y) + (if IsLeap(y) then 366 else 365)
  {
    assert y / 4 - (y - 1) / 4 == (if y % 4 == 0 then 1 else 0);
    assert y / 100 - (y - 1) / 100 == (if y % 100 == 0 then 1 else 0);
    assert y / 400 - (y - 1) / 400 == (if y % 400 == 0 then 1 else 0);
  }

  /** The calendar day after `d`. */
  function NextDay(d: Date): (n: Date)
    requires ValidDate(d) && d != Date(9999, 12, 31)
    ensures ValidDate(n)
  {
    if d.day < DaysInMonth(d.year, d.month) then Date(d.year, d.month, d.day + 1)
    else if d.month < 12 then Date(d.year, d.month + 1, 1)
    else Date(d.year + 1, 1, 1)
  }

  /** Consecutive calendar days have consecutive day numbers. */
  lemma NextDayOrdinal(d: Date)
    requires ValidDate(d) && d != Date(9999, 12, 31)
    ensures Ordinal(NextDay(d)) == Ordinal(d) + 1
  {
    if d.day == DaysInMonth(d.year, d.month) && d.month == 12 {
      YearLength(d.year);
    }
  }

  /** Seconds since the Unix epoch of a UTC wall-clock time. */
  function UnixSeconds(d: Date, t: TimeOfDay): int
    requires ValidDate(d)
  {
    (Ordinal(d) - UnixEpochOrdinal) * 86400 + t.hour * 3600 + t.minute * 60 + t.second
  }

  /**
   * A time of day lies within its day: the seconds of `d` at `t` are at
   * least those of its midnight and below those of the next midnight.
   */
  lemma WithinDay(d: Date, t: TimeOfDay)
    requires ValidDate(d) && d != Date(9999, 12, 31) && ValidTime(t)
    ensures UnixSeconds(d, Midnight) <= UnixSeconds(d, t) < UnixSeconds(NextDay(d), Midnight)
    ensures UnixSeconds(NextDay(d), Midnight) == UnixSeconds(d, Midnight) + 86400
  {
    NextDayOrdinal(d);
  }

  /* ---------- fixed-width decimal fields ---------- */

  function Pow10(w: nat): (p: nat)
    ensures p >= 1
  {
    if w == 0 then 1 else 10 * Pow10(w - 1)
  }

  /** `n` as `w` zero-padded digits, as `%0wd` prints it when it fits. */
  function Pad(n: nat, w: nat): (s: string)
    ensures |s| == w && AllDigits(s)
  {
    if w == 0 then [] else Pad(n / 10, w - 1) + [DigitChar(n % 10)]
  }

  /** Reading back the padded digits of a number that fits gives the number. */
  lemma {:induction false} PadValue(n: nat, w: nat)
    requires n < Pow10(w)
    ensures DecimalValue(Pad(n, w)) == n
  {
    if w > 0 {
      PadValue(n / 10, w - 1);
      var s := Pad(n, w);
      assert s[..|s| - 1] == Pad(n / 10, w - 1);
    }
  }

  /** The decimal field `s[i..i + w]`, when it is all digits. */
  function Field(s: string, i: nat, w: nat): Option<nat>
    requires i + w <= |s|
  {
    if AllDigits(s[i..i + w]) then Some(DecimalValue(s[i..i + w])) else None
  }

  /** `YYYY-MM-DD`, rejected (ValueError) when not a real date. */
  function ParseDate(s: string): (r: Option<Date>)
    ensures r.Some? ==> ValidDate(r.value)
  {
    if |s| != 10 || s[4] != '-' || s[7] != '-' then None
    else
      match (Field(s, 0, 4), Field(s, 5, 2), Field(s, 8, 2))
      case (Some(y), Some(m), Some(d)) => if ValidDate(Date(y, m, d)) then Some(Date(y, m, d)) else None
      case _ => None
  }

  /** `HH:MM:SS`, rejected when out of range. */
  function ParseTimeOfDay(s: string): (r: Option<TimeOfDay>)
    ensures r.Some? ==> ValidTime(r.value)
  {
    if |s| != 8 || s[2] != ':' || s[5] != ':' then None
    else
      match (Field(s, 0, 2), Field(s, 3, 2), Field(s, 6, 2))
      case (Some(h), Some(m), Some(sec)) =>
        if ValidTime(TimeOfDay(h, m, sec)) then Some(TimeOfDay(h, m, sec)) else None
      case _ => None
  }

  /**
   * `+HH:MM` or `-HH:MM`: seconds east of UTC.  The two fields are not
   * range-checked on their own; only the total must stay strictly within a
   * day, as the `timezone` built from it demands.
   */
  function ParseOffset(s: string): (r: Option<int>)
    ensures r.Some? ==> -86400 < r.value < 86400
  {
    if |s| != 6 || (s[0] != '+' && s[0] != '-') || s[3] != ':' then None
    else
      match (Field(s, 1, 2), Field(s, 4, 2))
      case (Some(h), Some(m)) =>
        var secs: int := h * 3600 + m * 60;
        if secs < 86400 then Some(if s[0] == '-' then -secs else secs) else None
      case _ => None
  }

  /** A minute field past 59 is accepted while the total is under a day, and refused once it is not. */
  lemma OffsetFieldsUnranged()
    ensures ParseOffset("+00:75") == Some(4500)
    ensures ParseOffset("-23:99") == None
  {
    OffsetPads();
    OffsetOfFields("+00:75", 0, 75);
    OffsetOfFields("-23:99", 23, 99);
  }

  lemma OffsetPads()
    ensures Pad(0, 2) == "00" && Pad(75, 2) == "75" && Pad(23, 2) == "23" && Pad(99, 2) == "99"
  {
    assert Pad(0, 1) == "0" && Pad(7, 1) == "7" && Pad(2, 1) == "2" && Pad(9, 1) == "9";
  }

  /** The offset read from two padded fields. */
  lemma OffsetOfFields(s: string, h: nat, m: nat)
    requires |s| == 6 && (s[0] == '+' || s[0] == '-') && s[3] == ':'
    requires h < 100 && m < 100 && s[1..3] == Pad(h, 2) && s[4..6] == Pad(m, 2)
    ensures var secs := h * 3600 + m * 60;
      ParseOffset(s) == if secs < 86400 then Some(if s[0] == '-' then -secs else secs) else None
  {
    Pow10Values();
    FieldOfPad(s, 1, h, 2);
    FieldOfPad(s, 4, m, 2);
  }

  /* ---------- datetime.fromisoformat ---------- */

  /** A parsed date-time; `offset` is `None` for a naive one. */
  datatype Instant = Instant(date: Date, time: TimeOfDay, offset: Option<int>)

  predicate ValidInstant(x: Instant) {
    ValidDate(x.date) && ValidTime(x.time) && (x.offset.Some? ==> -86400 < x.offset.value < 86400)
  }

  /**
   * `datetime.fromisoformat` on the layouts `YYYY-MM-DD`,
   * `YYYY-MM-DD?HH:MM:SS` and `YYYY-MM-DD?HH:MM:SS±HH:MM`, where `?` is any
   * single separator character; anything else raises ValueError (`None`).
   */
  function FromIsoFormat(s: string): (r: Option<Instant>)
    ensures r.Some? ==> ValidInstant(r.value)
  {
    if |s| != 10 && |s| != 19 && |s| != 25 then None
    else
      match ParseDate(s[..10])
      case None => None
      case Some(d) =>
        if |s| == 10 then Some(Instant(d, Midnight, None))
        else
          match ParseTimeOfDay(s[11..19])
          case None => None
          case Some(t) =>
            if |s| == 19 then Some(Instant(d, t, None))
            else
              match ParseOffset(s[19..])
              case None => None
              case Some(o) => Some(Instant(d, t, Some(o)))
  }

  /** The seconds east of UTC written `±HH:MM`. */
  function OffsetText(o: int): (s: string)
    requires -86400 < o < 86400
    ensures |s| == 6
  {
    var a := if o < 0 then -o else o;
    (if o < 0 then "-" else "+") + Pad(a / 3600, 2) + ":" + Pad(a % 3600 / 60, 2)
  }

  /** `d.isoformat()`: `YYYY-MM-DD`. */
  function DateText(d: Date): (s: string)
    requires ValidDate(d)
    ensures |s| == 10 && 'Z' !in s
  {
    var s := Pad(d.year, 4) + "-" + Pad(d.month, 2) + "-" + Pad(d.day, 2);
    assert forall i :: 0 <= i < |s| ==> IsDigit(s[i]) || s[i] == '-';
    s
  }

  /** `t.isoformat()`: `HH:MM:SS`. */
  function TimeText(t: TimeOfDay): (s: string)
    requires ValidTime(t)
    ensures |s| == 8 && 'Z' !in s
  {
    var s := Pad(t.hour, 2) + ":" + Pad(t.minute, 2) + ":" + Pad(t.second, 2);
    assert forall i :: 0 <= i < |s| ==> IsDigit(s[i]) || s[i] == ':';
    s
  }

  /** `x.isoformat()` for a date-time without fractional seconds. */
  function IsoFormat(x: Instant): string
    requires ValidInstant(x)
  {
    DateText(x.date) + "T" + TimeText(x.time) + (if x.offset.Some? then OffsetText(x.offset.value) else "")
  }

  lemma FieldOfPad(s: string, i: nat, n: nat, w: nat)
    requires i + w <= |s| && s[i..i + w] == Pad(n, w) && n < Pow10(w)
    ensures Field(s, i, w) == Some(n)
  {
    PadValue(n, w);
  }

  lemma Pow10Values()
    ensures Pow10(2) == 100 && Pow10(4) == 10000
  {
  }

  lemma DateRoundTrip(d: Date)
    requires ValidDate(d)
    ensures ParseDate(DateText(d)) == Some(d)
  {
    var s := DateText(d);
    Pow10Values();
    assert s[0..4] == Pad(d.year, 4);
    assert s[5..7] == Pad(d.month, 2);
    assert s[8..10] == Pad(d.day, 2);
    FieldOfPad(s, 0, d.year, 4);
    FieldOfPad(s, 5, d.month, 2);
    FieldOfPad(s, 8, d.day, 2);
  }

  lemma TimeRoundTrip(t: TimeOfDay)
    requires ValidTime(t)
    ensures ParseTimeOfDay(TimeText(t)) == Some(t)
  {
    var s := TimeText(t);
    Pow10Values();
    assert s[0..2] == Pad(t.hour, 2);
    assert s[3..5] == Pad(t.minute, 2);
    assert s[6..8] == Pad(t.second, 2);
    FieldOfPad(s, 0, t.hour, 2);
    FieldOfPad(s, 3, t.minute, 2);
    FieldOfPad(s, 6, t.second, 2);
  }

  lemma OffsetRoundTrip(o: int)
    requires -86400 < o < 86400 && o % 60 == 0
    ensures ParseOffset(OffsetText(o)) == Some(o)
  {
    var s := OffsetText(o);
    var a := if o < 0 then -o else o;
    var h, m := a / 3600, a % 3600 / 60;
    Pow10Values();
    assert s[0] == (if o < 0 then '-' else '+') && s[3] == ':';
    assert s[1..3] == Pad(h, 2);
    assert s[4..6] == Pad(m, 2);
    FieldOfPad(s, 1, h, 2);
    FieldOfPad(s, 4, m, 2);
    WholeMinutesMagnitude(o);
    assert h * 3600 + m * 60 == a by { HoursMinutes(a); }
  }

  lemma WholeMinutesMagnitude(o: int)
    requires o % 60 == 0
    ensures (if o < 0 then -o else o) % 60 == 0
  {
    var q := o / 60;
    assert o == 60 * q;
    assert -o == 60 * -q;
  }

  /** A whole number of minutes is its hours and its remaining minutes. */
  lemma HoursMinutes(a: nat)
    requires a % 60 == 0
    ensures a == a / 3600 * 3600 + a % 3600 / 60 * 60
  {
    var h, r := a / 3600, a % 3600;
    assert a == h * 3600 + r;
    assert r % 60 == 0;
  }

  /** `fromisoformat` reads back what `isoformat` writes (whole-minute offsets). */
  lemma IsoRoundTrip(x: Instant)
    requires ValidInstant(x)
    requires x.offset.Some? ==> x.offset.value % 60 == 0
    ensures FromIsoFormat(IsoFormat(x)) == Some(x)
  {
    var ds, ts := DateText(x.date), TimeText(x.time);
    var os := if x.offset.Some? then OffsetText(x.offset.value) else "";
    var s := IsoFormat(x);
    assert s[..10] == ds;
    assert s[11..19] == ts;
    assert s[19..] == os;
    DateRoundTrip(x.date);
    TimeRoundTrip(x.time);
    if x.offset.Some? {
      OffsetRoundTrip(x.offset.value);
    }
  }

  /** How the host converts a naive wall-clock time (as UTC seconds) to Unix seconds. */
  type LocalTime = int -> int

  /** `int(dt.timestamp())`: an explicit offset is subtracted; a naive time goes through the host's zone. */
  function Timestamp(x: Instant, local: LocalTime): int
    requires ValidDate(x.date)
  {
    match x.offset
    case Some(o) => UnixSeconds(x.date, x.time) - o
    case None => local(UnixSeconds(x.date, x.time))
  }

  /**
   * The conversion of `summarize_channel`: 'Z' becomes "+00:00", then
   * `fromisoformat` and `int(timestamp())`; `None` when `fromisoformat` raises.
   */
  function IsoToUnix(s: string, local: LocalTime): Option<int> {
    match FromIsoFormat(ReplaceAll(s, 'Z', "+00:00"))
    case None => None
    case Some(x) => Some(Timestamp(x, local))
  }

  lemma {:induction false} ReplaceAllAppend(a: string, b: string, c: char, r: string)
    ensures ReplaceAll(a + b, c, r) == ReplaceAll(a, c, r) + ReplaceAll(b, c, r)
  {
    if a != [] {
      ReplaceAllAppend(a[1..], b, c, r);
      assert (a + b)[1..] == a[1..] + b;
    } else {
      assert a + b == b;
    }
  }

  /**
   * A UTC instant written with a trailing 'Z' converts to its Unix seconds,
   * whatever the host's time zone.
   */
  lemma ZuluToUnix(d: Date, t: TimeOfDay, local: LocalTime)
    requires ValidDate(d) && ValidTime(t)
    ensures IsoToUnix(DateText(d) + "T" + TimeText(t) + "Z", local) == Some(UnixSeconds(d, t))
  {
    var y := Instant(d, t, Some(0));
    ZuluReplaced(d, t);
    IsoRoundTrip(y);
  }

  lemma ZuluReplaced(d: Date, t: TimeOfDay)
    requires ValidDate(d) && ValidTime(t)
    ensures ReplaceAll(DateText(d) + "T" + TimeText(t) + "Z", 'Z', "+00:00") == IsoFormat(Instant(d, t, Some(0)))
  {
    var body := DateText(d) + "T" + TimeText(t);
    ReplaceAllAppend(body, "Z", 'Z', "+00:00");
    ReplaceAbsent(body, 'Z', "+00:00");
    assert ReplaceAll("Z", 'Z', "+00:00") == "+00:00";
    assert OffsetText(0) == "+00:00";
  }

  /** 2024-01-01T00:00:00Z is 1704067200 and the next midnight 1704153600. */
  lemma NewYear2024()
    ensures UnixSeconds(Date(2024, 1, 1), Midnight) == 1704067200
    ensures UnixSeconds(Date(2024, 1, 2), Midnight) == 1704153600
    ensures NextDay(Date(2024, 1, 1)) == Date(2024, 1, 2)
  {
    assert DaysBeforeYear(2024) == 738885;
  }

  /** The texts of the two instants. */
  lemma NewYearTexts()
    ensures DateText(Date(2024, 1, 1)) + "T" + TimeText(Midnight) + "Z" == "2024-01-01T00:00:00Z"
    ensures DateText(Date(2024, 1, 2)) + "T" + TimeText(Midnight) + "Z" == "2024-01-02T00:00:00Z"
  {
    NewYearDates();
    MidnightText();
    ZuluText("2024-01-01");
    ZuluText("2024-01-02");
  }

  /** A date's text followed by midnight in UTC. */
  lemma ZuluText(date: string)
    ensures date + "T" + "00:00:00" + "Z" == date + "T00:00:00Z"
  {
    assert "T" + "00:00:00" + "Z" == "T00:00:00Z";
    ConcatAssoc(date, "T", "00:00:00");
    ConcatAssoc(date, "T" + "00:00:00", "Z");
  }

  lemma NewYearDates()
    ensures DateText(Date(2024, 1, 1)) == "2024-01-01"
    ensures DateText(Date(2024, 1, 2)) == "2024-01-02"
  {
    NewYearPads();
  }

  lemma MidnightText()
    ensures TimeText(Midnight) == "00:00:00"
  {
    NewYearPads();
  }

  lemma NewYearPads()
    ensures Pad(0, 2) == "00" && Pad(1, 2) == "01" && Pad(2, 2) == "02" && Pad(2024, 4) == "2024"
  {
    assert Pad(0, 1) == "0";
    assert Pad(2, 1) == "2";
    assert Pad(20, 2) == "20";
    assert Pad(202, 3) == "202";
  }

  /* ---------- time.strptime ---------- */

  /** `datetime.strptime(s, '%Y-%m-%d %H:%M:%S')` on zero-padded fields. */
  function StrptimeDateTime(s: string): (r: Option<(Date, TimeOfDay)>)
    ensures r.Some? ==> ValidDate(r.value.0) && ValidTime(r.value.1)
  {
    if |s| != 19 || s[10] != ' ' then None
    else
      match (ParseDate(s[..10]), ParseTimeOfDay(s[11..]))
      case (Some(d), Some(t)) => Some((d, t))
      case _ => None
  }

  /** The `'%Y-%m-%d %H:%M:%S'` text of a valid date and time is read back as them. */
  lemma StrptimeReadsBack(d: Date, t: TimeOfDay)
    requires ValidDate(d) && ValidTime(t)
    ensures StrptimeDateTime(DateText(d) + " " + TimeText(t)) == Some((d, t))
  {
    var s := DateText(d) + " " + TimeText(t);
    assert s[..10] == DateText(d) && s[10] == ' ' && s[11..] == TimeText(t);
    DateRoundTrip(d);
    TimeRoundTrip(t);
  }

  /** `datetime.strptime(s, '%Y-%m-%d')` on zero-padded fields. */
  function StrptimeDate(s: string): (r: Option<Date>)
    ensures r.Some? ==> ValidDate(r.value)
  {
    ParseDate(s)
  }
}

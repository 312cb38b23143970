/** `utc_iso_timestamp` of apps/desktop/src/local_tool_adapter.rs: Unix seconds to a Gregorian date-time. */
module Gregorian {
  import opened Common
  import opened Text

  datatype Date = Date(year: int, month: int, day: int)
  datatype DateTime = DateTime(date: Date, hour: int, minute: int, second: int)

  // ---- Reference calendar

  predicate IsLeap(year: int) {
    year % 4 == 0 && (year % 100 != 0 || year % 400 == 0)
  }

  function MonthLength(year: int, month: int): int {
    if month == 2 then if IsLeap(year) then 29 else 28
    else if month in {4, 6, 9, 11} then 30
    else 31
  }

  predicate ValidDate(x: Date) {
    1 <= x.month <= 12 && 1 <= x.day <= MonthLength(x.year, x.month)
  }

  predicate Valid(x: DateTime) {
    ValidDate(x.date) && 0 <= x.hour < 24 && 0 <= x.minute < 60 && 0 <= x.second < 60
  }

  /** The following calendar day. */
  function NextDay(x: Date): Date {
    if x.day < MonthLength(x.year, x.month) then Date(x.year, x.month, x.day + 1)
    else if x.month < 12 then Date(x.year, x.month + 1, 1)
    else Date(x.year + 1, 1, 1)
  }

  /** Leap years in 1 .. year - 1, extended to years before 1. */
  function LeapsBefore(year: int): int {
    (year - 1) / 4 - (year - 1) / 100 + (year - 1) / 400
  }

  function DaysBeforeMonth(year: int, month: int): int
    requires 1 <= month <= 12
  {
    if month == 1 then 0 else DaysBeforeMonth(year, month - 1) + MonthLength(year, month - 1)
  }

  /** Days since 1970-01-01. */
  function DayNumber(x: Date): int
    requires 1 <= x.month <= 12
  {
    365 * (x.year - 1970) + LeapsBefore(x.year) - LeapsBefore(1970) + DaysBeforeMonth(x.year, x.month) + x.day - 1
  }

  function Seconds(x: DateTime): int
    requires 1 <= x.date.month <= 12
  {
    86400 * DayNumber(x.date) + 3600 * x.hour + 60 * x.minute + x.second
  }

  lemma LeapStep(year: int)
    ensures LeapsBefore(year + 1) == LeapsBefore(year) + if IsLeap(year) then 1 else 0
  {
    var q4, q100, q400 := year / 4, year / 100, year / 400;
    assert (year - 1) / 4 == if year % 4 == 0 then q4 - 1 else q4;
    assert (year - 1) / 100 == if year % 100 == 0 then q100 - 1 else q100;
    assert (year - 1) / 400 == if year % 400 == 0 then q400 - 1 else q400;
  }

  lemma MonthTable(year: int)
    ensures
      var b := if IsLeap(year) then 1 else 0;
      && DaysBeforeMonth(year, 1) == 0 && DaysBeforeMonth(year, 2) == 31 && DaysBeforeMonth(year, 3) == 59 + b
      && DaysBeforeMonth(year, 4) == 90 + b && DaysBeforeMonth(year, 5) == 120 + b && DaysBeforeMonth(year, 6) == 151 + b
      && DaysBeforeMonth(year, 7) == 181 + b && DaysBeforeMonth(year, 8) == 212 + b && DaysBeforeMonth(year, 9) == 243 + b
      && DaysBeforeMonth(year, 10) == 273 + b && DaysBeforeMonth(year, 11) == 304 + b && DaysBeforeMonth(year, 12) == 334 + b
  {
    assert DaysBeforeMonth(year, 3) == DaysBeforeMonth(year, 2) + MonthLength(year, 2);
    assert DaysBeforeMonth(year, 4) == DaysBeforeMonth(year, 3) + 31;
    assert DaysBeforeMonth(year, 5) == DaysBeforeMonth(year, 4) + 30;
    assert DaysBeforeMonth(year, 6) == DaysBeforeMonth(year, 5) + 31;
    assert DaysBeforeMonth(year, 7) == DaysBeforeMonth(year, 6) + 30;
    assert DaysBeforeMonth(year, 8) == DaysBeforeMonth(year, 7) + 31;
    assert DaysBeforeMonth(year, 9) == DaysBeforeMonth(year, 8) + 31;
    assert DaysBeforeMonth(year, 10) == DaysBeforeMonth(year, 9) + 30;
    assert DaysBeforeMonth(year, 11) == DaysBeforeMonth(year, 10) + 31;
    assert DaysBeforeMonth(year, 12) == DaysBeforeMonth(year, 11) + 30;
  }

  /** The day number counts calendar days: the epoch is day 0 and each next day is one more. */
  lemma DayNumberCounts(x: Date)
    requires ValidDate(x)
    ensures DayNumber(Date(1970, 1, 1)) == 0
    ensures ValidDate(NextDay(x)) && DayNumber(NextDay(x)) == DayNumber(x) + 1
  {
    LeapStep(x.year);
    MonthTable(x.year);
    MonthTable(x.year + 1);
  }

  // ---- The conversion

  /** Rust's `/` truncates toward zero. */
  function Quotient(a: int, b: int): int
    requires b > 0
  {
    if a >= 0 then a / b else -((-a) / b)
  }

  function YearOfEra(doe: int): int
    requires 0 <= doe < 146097
  {
    (doe - doe / 1460 + doe / 36524 - doe / 146096) / 365
  }

  /** The 400-year era of a day count from 0000-03-01, rounded down by the source's adjusted `/`. */
  function Era(z: int): (era: int)
    ensures 0 <= z - era * 146097 < 146097
  {
    Quotient(if z >= 0 then z else z - 146096, 146097)
  }

  /** The date `doy` days after 1 March of `year`. */
  function MarchDate(year: int, doy: int): Date
    requires 0 <= doy <= 365
  {
    var mp := (5 * doy + 2) / 153;
    var month := mp + if mp < 10 then 3 else -9;
    Date(year + (if month <= 2 then 1 else 0), month, doy - (153 * mp + 2) / 5 + 1)
  }

  /** A day as its March-based year and the days since 1 March; the source names these yoe + era * 400
      and doy. */
  datatype MarchDay = MarchDay(year: int, doy: int)

  function DayInEra(era: int, doe: int): (m: MarchDay)
    requires 0 <= doe < 146097
    ensures 0 <= m.doy <= 365 && (m.doy == 365 ==> IsLeap(m.year + 1))
    ensures 365 * m.year + m.year / 4 - m.year / 100 + m.year / 400 + m.doy == era * 146097 + doe
  {
    var yoe := YearOfEra(doe);
    YearOfEraCorrect(doe);
    EraShift(yoe, era);
    MarchDay(yoe + era * 400, doe - (365 * yoe + yoe / 4 - yoe / 100))
  }

  function CivilDate(days: int): Date {
    var z := days + 719468;
    var era := Era(z);
    var m := DayInEra(era, z - era * 146097);
    MarchDate(m.year, m.doy)
  }

  function Convert(t: int): DateTime {
    var seconds := t % 86400;
    DateTime(CivilDate(t / 86400), seconds / 3600, (seconds % 3600) / 60, seconds % 60)
  }

  /** Centuries, four-year cycles, years and days within the era, as a calendar counts them. */
  lemma EraParts(doe: int) returns (a: int, b: int, c: int, r: int)
    requires 0 <= doe < 146097
    ensures 0 <= a <= 3 && 0 <= b <= 24 && 0 <= c <= 3 && 0 <= r <= 365
    ensures doe == 36524 * c + 1461 * b + 365 * a + r
    ensures r == 365 ==> a == 3 && (b < 24 || c == 3)
  {
    c := if doe / 36524 < 3 then doe / 36524 else 3;
    var inCentury := doe - 36524 * c;
    b := inCentury / 1461;
    var inCycle := inCentury - 1461 * b;
    a := if inCycle / 365 < 3 then inCycle / 365 else 3;
    r := inCycle - 365 * a;
  }

  /** The March-based year of an era is the one whose day range contains the day of era. */
  lemma CenturyOf(a: int, b: int, c: int)
    requires 0 <= a <= 3 && 0 <= b <= 24 && 0 <= c <= 3
    ensures var y := 100 * c + 4 * b + a; y / 4 == 25 * c + b && y / 100 == c
    ensures a == 3 && (b < 24 || c == 3) ==> IsLeap(100 * c + 4 * b + a + 1)
  {
    Shift(4 * b + a + 1, c);
    Shift(a + 1, b);
  }

  lemma YearOfEraCorrect(doe: int)
    requires 0 <= doe < 146097
    ensures
      var y := YearOfEra(doe);
      var doy := doe - (365 * y + y / 4 - y / 100);
      && 0 <= y < 400 && 0 <= doy <= 365
      && (doy == 365 ==> IsLeap(y + 1))
  {
    var a, b, c, r := EraParts(doe);
    YearFormula(a, b, c, r);
    CenturyOf(a, b, c);
    hide YearOfEra, IsLeap;
  }

  lemma YearFormula(a: int, b: int, c: int, r: int)
    requires 0 <= c <= 3 && 0 <= b <= 24 && 0 <= a <= 3 && 0 <= r <= 365
    requires r == 365 ==> a == 3 && (b < 24 || c == 3)
    ensures
      var doe := 36524 * c + 1461 * b + 365 * a + r;
      0 <= doe < 146097 && YearOfEra(doe) == 100 * c + 4 * b + a
  {
    var doe := 36524 * c + 1461 * b + 365 * a + r;
    assert doe / 36524 == c || (c == 3 && doe == 146096);
    assert doe / 146096 == if doe == 146096 then 1 else 0;
  }

  /** Where the month of the March-based year starts, and which civil month it is. */
  lemma MonthOfYear(doy: int)
    requires 0 <= doy <= 365
    ensures
      var mp := (5 * doy + 2) / 153;
      var day := doy - (153 * mp + 2) / 5;
      var starts := [0, 31, 61, 92, 122, 153, 184, 214, 245, 275, 306, 337];
      && 0 <= mp <= 11 && (153 * mp + 2) / 5 == starts[mp] && 0 <= day
      && (mp < 11 ==> day < starts[mp + 1] - starts[mp]) && (mp == 11 ==> day <= 28)
  {
  }

  lemma MarchDateCounts(year: int, doy: int)
    requires 0 <= doy <= 365 && (doy == 365 ==> IsLeap(year + 1))
    ensures
      && ValidDate(MarchDate(year, doy))
      && DayNumber(MarchDate(year, doy)) == 365 * year + year / 4 - year / 100 + year / 400 + doy - 719468
  {
    MonthOfYear(doy);
    LeapStep(year);
    MonthTable(year);
    MonthTable(year + 1);
    assert LeapsBefore(year + 1) == year / 4 - year / 100 + year / 400;
    assert LeapsBefore(1970) == 477;
  }

  lemma Shift(x: int, k: int)
    ensures (x + 4 * k) / 4 == x / 4 + k && (x + 100 * k) / 100 == x / 100 + k && (x + 400 * k) / 400 == x / 400 + k
    ensures (x + 4 * k) % 4 == x % 4 && (x + 100 * k) % 100 == x % 100 && (x + 400 * k) % 400 == x % 400
  {
  }

  lemma EraShift(yoe: int, era: int)
    requires 0 <= yoe < 400
    ensures
      var y := yoe + era * 400;
      && y / 4 == yoe / 4 + 100 * era && y / 100 == yoe / 100 + 4 * era && y / 400 == era
      && IsLeap(y + 1) == IsLeap(yoe + 1)
  {
    Shift(yoe, 100 * era);
    Shift(yoe, 4 * era);
    Shift(yoe, era);
    Shift(yoe + 1, 100 * era);
    Shift(yoe + 1, 4 * era);
    Shift(yoe + 1, era);
  }

  /** Every day count converts to a valid date whose day number is that count. */
  /** Every day count converts to a valid date whose day number is that count. */
  lemma CivilDateInverts(days: int)
    ensures ValidDate(CivilDate(days)) && DayNumber(CivilDate(days)) == days
  {
    hide DayNumber, ValidDate, MarchDate, DayInEra, Era, IsLeap;
    var z := days + 719468;
    var m := DayInEra(Era(z), z - Era(z) * 146097);
    MarchDateCounts(m.year, m.doy);
  }

  /** Every second count converts to a valid date-time that converts back to exactly that count. */
  lemma ConvertInverts(t: int)
    ensures Valid(Convert(t)) && Seconds(Convert(t)) == t
  {
    hide CivilDate, DayNumber, ValidDate;
    CivilDateInverts(t / 86400);
  }

  // ---- Order

  predicate DateBefore(x: Date, y: Date) {
    x.year < y.year || (x.year == y.year && (x.month < y.month || (x.month == y.month && x.day < y.day)))
  }

  /** Lexicographic order of the field tuples. */
  predicate Before(x: DateTime, y: DateTime) {
    DateBefore(x.date, y.date)
    || (x.date == y.date
        && (x.hour < y.hour || (x.hour == y.hour && (x.minute < y.minute || (x.minute == y.minute && x.second < y.second)))))
  }

  lemma {:induction false} NewYearIncreases(a: int, b: int)
    requires a <= b
    ensures DayNumber(Date(a, 1, 1)) + 365 * (b - a) <= DayNumber(Date(b, 1, 1))
    decreases b - a
  {
    if a < b {
      NewYearIncreases(a, b - 1);
      LeapStep(b - 1);
    }
  }

  /** A date lies within its year. */
  lemma YearSpan(x: Date)
    requires ValidDate(x)
    ensures DayNumber(Date(x.year, 1, 1)) <= DayNumber(x) < DayNumber(Date(x.year + 1, 1, 1))
  {
    LeapStep(x.year);
    MonthTable(x.year);
    MonthTable(x.year + 1);
  }

  lemma {:induction false} DayNumberIncreases(x: Date, y: Date)
    requires ValidDate(x) && ValidDate(y) && DateBefore(x, y)
    ensures DayNumber(x) < DayNumber(y)
  {
    if x.year < y.year {
      hide DayNumber;
      YearSpan(x);
      YearSpan(y);
      NewYearIncreases(x.year + 1, y.year);
    } else {
      MonthTable(x.year);
    }
  }

  lemma SecondsIncrease(x: DateTime, y: DateTime)
    requires Valid(x) && Valid(y) && Before(x, y)
    ensures Seconds(x) < Seconds(y)
  {
    hide DayNumber;
    if DateBefore(x.date, y.date) {
      DayNumberIncreases(x.date, y.date);
    }
  }

  lemma BeforeIsTotal(x: DateTime, y: DateTime)
    ensures x == y || Before(x, y) || Before(y, x)
  {
  }

  /** The field tuple is strictly increasing in the input. */
  lemma ConvertIncreases(a: int, b: int)
    ensures a < b <==> Before(Convert(a), Convert(b))
  {
    hide Convert, Seconds, Valid, Before;
    ConvertInverts(a);
    ConvertInverts(b);
    BeforeIsTotal(Convert(a), Convert(b));
    if Before(Convert(a), Convert(b)) {
      SecondsIncrease(Convert(a), Convert(b));
    }
    if Before(Convert(b), Convert(a)) {
      SecondsIncrease(Convert(b), Convert(a));
    }
  }

  const I64_MAX := 0x7fff_ffff_ffff_ffff

  predicate FitsI64(x: int) {
    -I64_MAX - 1 <= x <= I64_MAX
  }

  /** For every i64 input the intermediate values stay in i64, so nothing overflows. */
  lemma NoOverflow(t: int)
    requires FitsI64(t)
    ensures
      var z := t / 86400 + 719468;
      var era := Era(z);
      && FitsI64(z) && FitsI64(z - 146096) && FitsI64(era * 146097) && FitsI64(z - era * 146097)
      && FitsI64(era * 400) && FitsI64(Convert(t).date.year)
  {
    var z := t / 86400 + 719468;
    YearOfEraCorrect(z - Era(z) * 146097);
  }

  // ---- The text, in the date-time format of section 5.6 of RFC 3339

  function Zeros(n: int): (r: string)
    ensures |r| == if n < 0 then 0 else n
    ensures forall i | 0 <= i < |r| :: r[i] == '0'
  {
    if n <= 0 then "" else "0" + Zeros(n - 1)
  }

  /** Rust's `{:0width}`: the sign counts towards the width and comes before the zeros. */
  function Padded(n: int, width: int): string {
    if n < 0 then "-" + Zeros(width - 1 - |Decimal(-n)|) + Decimal(-n)
    else Zeros(width - |Decimal(n)|) + Decimal(n)
  }

  function Timestamp(t: int, milliseconds: nat): string {
    var x := Convert(t);
    Padded(x.date.year, 4) + "-" + Padded(x.date.month, 2) + "-" + Padded(x.date.day, 2) + "T"
    + Padded(x.hour, 2) + ":" + Padded(x.minute, 2) + ":" + Padded(x.second, 2) + "." + Padded(milliseconds, 3) + "Z"
  }

  /** Exactly `width` digits denoting `n`. */
  predicate Field(text: string, width: int, n: int) {
    |text| == width && (forall c | c in text :: IsDigit(c)) && Value(text) == n
  }

  /** The grammar of RFC 3339 with a three-digit fraction and zone Z, and the fields it denotes. */
  predicate DenotesDateTime(text: string, x: DateTime, milliseconds: int) {
    && |text| == 24
    && Field(text[0..4], 4, x.date.year) && text[4] == '-' && Field(text[5..7], 2, x.date.month) && text[7] == '-'
    && Field(text[8..10], 2, x.date.day) && text[10] == 'T'
    && Field(text[11..13], 2, x.hour) && text[13] == ':' && Field(text[14..16], 2, x.minute) && text[16] == ':'
    && Field(text[17..19], 2, x.second) && text[19] == '.' && Field(text[20..23], 3, milliseconds) && text[23] == 'Z'
    && Valid(x) && 0 <= milliseconds < 1000
  }

  lemma {:induction false} DecimalLength(n: nat, width: int)
    requires 1 <= width <= 4 && n < (if width == 1 then 10 else if width == 2 then 100 else if width == 3 then 1000 else 10000)
    ensures |Decimal(n)| <= width
    decreases width
  {
    if n >= 10 {
      DecimalLength(n / 10, width - 1);
    }
  }

  lemma {:induction false} ZerosKeepValue(k: int, text: string)
    requires text != ""
    ensures Value(Zeros(k) + text) == Value(text)
    decreases |text|
  {
    var whole := Zeros(k) + text;
    assert whole[..|whole| - 1] == Zeros(k) + text[..|text| - 1];
    if |text| == 1 {
      assert whole[..|whole| - 1] == Zeros(k);
      ZerosAreZero(k);
      assert text[..0] == "";
    } else {
      ZerosKeepValue(k, text[..|text| - 1]);
    }
  }

  lemma {:induction false} ZerosAreZero(k: int)
    ensures Value(Zeros(k)) == 0
    decreases k
  {
    if k > 0 {
      ZerosAreZero(k - 1);
      assert Zeros(k)[..k - 1] == Zeros(k - 1);
    }
  }

  lemma PaddedIsField(n: nat, width: int)
    requires 1 <= width <= 4 && n < (if width == 1 then 10 else if width == 2 then 100 else if width == 3 then 1000 else 10000)
    ensures Field(Padded(n, width), width, n) && |Padded(n, width)| == width
  {
    DecimalLength(n, width);
    ValueOfDecimal(n);
    ZerosKeepValue(width - |Decimal(n)|, Decimal(n));
  }

  /** For years 0000 to 9999 the text is an RFC 3339 date-time denoting exactly the converted fields. */
  lemma TimestampIsRfc3339(t: int, milliseconds: nat)
    requires 0 <= Convert(t).date.year <= 9999 && milliseconds < 1000
    ensures DenotesDateTime(Timestamp(t, milliseconds), Convert(t), milliseconds)
  {
    hide Field, Padded, Convert, Valid;
    ConvertInverts(t);
    var x := Convert(t);
    Bounds(x);
    PaddedIsField(x.date.year, 4);
    PaddedIsField(x.date.month, 2);
    PaddedIsField(x.date.day, 2);
    PaddedIsField(x.hour, 2);
    PaddedIsField(x.minute, 2);
    PaddedIsField(x.second, 2);
    PaddedIsField(milliseconds, 3);
    Layout(Padded(x.date.year, 4), Padded(x.date.month, 2), Padded(x.date.day, 2), Padded(x.hour, 2),
           Padded(x.minute, 2), Padded(x.second, 2), Padded(milliseconds, 3));
  }

  lemma Bounds(x: DateTime)
    requires Valid(x)
    ensures 1 <= x.date.month <= 12 && 1 <= x.date.day <= 31
    ensures 0 <= x.hour < 24 && 0 <= x.minute < 60 && 0 <= x.second < 60
  {
  }

  lemma Layout(a: string, b: string, c: string, d: string, e: string, f: string, g: string)
    requires |a| == 4 && |b| == |c| == |d| == |e| == |f| == 2 && |g| == 3
    ensures
      var text := a + "-" + b + "-" + c + "T" + d + ":" + e + ":" + f + "." + g + "Z";
      && |text| == 24 && text[0..4] == a && text[4] == '-' && text[5..7] == b && text[7] == '-' && text[8..10] == c
      && text[10] == 'T' && text[11..13] == d && text[13] == ':' && text[14..16] == e && text[16] == ':'
      && text[17..19] == f && text[19] == '.' && text[20..23] == g && text[23] == 'Z'
  {
  }

  /** The text exists in that form for exactly the seconds of years 0000 to 9999. */
  lemma FourDigitYears(t: int)
    ensures 0 <= Convert(t).date.year <= 9999 <==> -62167219200 <= t < 253402300800
  {
    hide Convert, Seconds, Valid, Before, ValidDate;
    ConvertInverts(t);
    YearBounds(Convert(t));
  }

  lemma YearBounds(x: DateTime)
    requires Valid(x)
    ensures 0 <= x.date.year <= 9999 <==> -62167219200 <= Seconds(x) < 253402300800
  {
    var first, last := DateTime(Date(0, 1, 1), 0, 0, 0), DateTime(Date(10000, 1, 1), 0, 0, 0);
    assert Seconds(first) == -62167219200 && Seconds(last) == 253402300800;
    BeforeIsTotal(x, first);
    BeforeIsTotal(x, last);
    if Before(x, first) { SecondsIncrease(x, first); }
    if Before(first, x) { SecondsIncrease(first, x); }
    if Before(x, last) { SecondsIncrease(x, last); }
    if Before(last, x) { SecondsIncrease(last, x); }
  }
}

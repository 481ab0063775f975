/** ISO timestamps as stored text: for which instants the order of the texts is the order of time. */
module Timestamps {
  import opened Common

  /** The fields of an instant in UTC; the year before year 0 is year -1. */
  datatype Fields = Fields(year: int, month: nat, day: nat, hour: nat, minute: nat, second: nat, ms: nat)

  predicate Leap(y: int) { y % 4 == 0 && (y % 100 != 0 || y % 400 == 0) }

  function MonthDays(y: int, m: nat): nat {
    if m in {4, 6, 9, 11} then 30 else if m == 2 then (if Leap(y) then 29 else 28) else 31
  }

  const FIRST_YEAR := -271_821
  const LAST_YEAR := 275_760

  /** A date of the calendar in the years a Date can hold, and a time of day. */
  predicate Valid(f: Fields) {
    && FIRST_YEAR <= f.year <= LAST_YEAR && 1 <= f.month <= 12 && 1 <= f.day <= MonthDays(f.year, f.month)
    && f.hour < 24 && f.minute < 60 && f.second < 60 && f.ms < 1000
  }

  // ---------- time ----------

  /** Days from the start of year 0 to the start of a year, and of a month in it. */
  function YearStart(y: int): int { 365 * y + (y - 1) / 4 - (y - 1) / 100 + (y - 1) / 400 + 1 }

  function MonthStart(y: int, m: nat): nat { if m <= 1 then 0 else MonthStart(y, m - 1) + MonthDays(y, m - 1) }

  const EPOCH_DAY := 719_528

  function DayNumber(f: Fields): int { YearStart(f.year) + MonthStart(f.year, f.month) + f.day - 1 - EPOCH_DAY }

  function DayMs(f: Fields): int { ((f.hour * 60 + f.minute) * 60 + f.second) * 1000 + f.ms }

  /** Milliseconds since the epoch. */
  function Ms(f: Fields): int { DayNumber(f) * 86_400_000 + DayMs(f) }

  predicate EarlierDate(f: Fields, g: Fields) {
    f.year < g.year || (f.year == g.year && (f.month < g.month || (f.month == g.month && f.day < g.day)))
  }

  predicate SameDate(f: Fields, g: Fields) { f.year == g.year && f.month == g.month && f.day == g.day }

  predicate EarlierOfDay(f: Fields, g: Fields) {
    f.hour < g.hour || (f.hour == g.hour && (f.minute < g.minute || (f.minute == g.minute &&
      (f.second < g.second || (f.second == g.second && f.ms < g.ms)))))
  }

  predicate Earlier(f: Fields, g: Fields) { EarlierDate(f, g) || (SameDate(f, g) && EarlierOfDay(f, g)) }

  lemma YearLength(y: int)
    ensures YearStart(y + 1) == YearStart(y) + MonthStart(y, 12) + 31
  {
    assert MonthStart(y, 12) == 306 + (if Leap(y) then 29 else 28) by { YearMonths(y); }
    LeapCount(y);
  }

  /** The leap days up to the end of a year are those up to its start, and its own. */
  lemma LeapCount(y: int)
    ensures YearStart(y + 1) == YearStart(y) + (if Leap(y) then 366 else 365)
  {
    Fours(y);
    Hundreds(y);
    FourHundreds(y);
    Multiples(y);
  }

  lemma Fours(y: int)
    ensures y / 4 == (y - 1) / 4 + (if y % 4 == 0 then 1 else 0)
  {
  }

  lemma Hundreds(y: int)
    ensures y / 100 == (y - 1) / 100 + (if y % 100 == 0 then 1 else 0)
  {
  }

  lemma FourHundreds(y: int)
    ensures y / 400 == (y - 1) / 400 + (if y % 400 == 0 then 1 else 0)
  {
  }

  lemma Multiples(y: int)
    ensures y % 400 == 0 ==> y % 100 == 0
    ensures y % 100 == 0 ==> y % 4 == 0
  {
    if y % 400 == 0 { Quotient(y, 100, 4 * (y / 400)); }
    if y % 100 == 0 { Quotient(y, 4, 25 * (y / 100)); }
  }

  lemma Quotient(y: int, divisor: int, q: int)
    requires divisor in {4, 100} && y == divisor * q
    ensures y % divisor == 0
  {
    if divisor == 4 { assert y / 4 == q; } else { assert y / 100 == q; }
  }

  lemma YearMonths(y: int)
    ensures MonthStart(y, 12) == 306 + MonthDays(y, 2)
  {
    assert MonthStart(y, 2) == 31;
    assert MonthStart(y, 3) == 31 + MonthDays(y, 2);
    assert MonthStart(y, 4) == MonthStart(y, 3) + 31;
    assert MonthStart(y, 5) == MonthStart(y, 4) + 30;
    assert MonthStart(y, 6) == MonthStart(y, 5) + 31;
    assert MonthStart(y, 7) == MonthStart(y, 6) + 30;
    assert MonthStart(y, 8) == MonthStart(y, 7) + 31;
    assert MonthStart(y, 9) == MonthStart(y, 8) + 31;
    assert MonthStart(y, 10) == MonthStart(y, 9) + 30;
    assert MonthStart(y, 11) == MonthStart(y, 10) + 31;
  }

  lemma {:induction false} YearsGrow(a: int, b: int)
    requires a <= b
    ensures YearStart(a) <= YearStart(b)
    decreases b - a
  {
    if a < b {
      YearsGrow(a, b - 1);
      LeapCount(b - 1);
    }
  }

  lemma {:induction false} MonthsGrow(y: int, a: nat, b: nat)
    requires 1 <= a <= b <= 12
    ensures MonthStart(y, a) <= MonthStart(y, b)
    ensures a < b ==> MonthStart(y, a) + MonthDays(y, a) <= MonthStart(y, b)
    decreases b - a
  {
    if a < b { MonthsGrow(y, a, b - 1); }
  }

  /** Within a year the day number stays below the next year's start. */
  lemma InsideYear(f: Fields)
    requires Valid(f)
    ensures YearStart(f.year) <= DayNumber(f) + EPOCH_DAY < YearStart(f.year + 1)
  {
    hide MonthDays;
    MonthsGrow(f.year, f.month, 12);
    MonthsGrow(f.year, 1, f.month);
    YearLength(f.year);
    DecemberIsLast(f.year, f.month);
  }

  lemma DecemberIsLast(y: int, m: nat)
    requires 1 <= m <= 12
    ensures MonthStart(y, m) + MonthDays(y, m) <= MonthStart(y, 12) + 31
  {
    if m < 12 { MonthsGrow(y, m, 12); }
  }

  lemma DatesInOrder(f: Fields, g: Fields)
    requires Valid(f) && Valid(g) && EarlierDate(f, g)
    ensures DayNumber(f) < DayNumber(g)
  {
    hide MonthDays;
    if f.year < g.year {
      InsideYear(f);
      InsideYear(g);
      YearsGrow(f.year + 1, g.year);
    } else if f.month < g.month {
      MonthsGrow(f.year, f.month, g.month);
    }
  }

  lemma TimesInOrder(f: Fields, g: Fields)
    requires Valid(f) && Valid(g)
    ensures EarlierOfDay(f, g) <==> DayMs(f) < DayMs(g)
    ensures 0 <= DayMs(f) < 86_400_000
  {
    hide MonthDays, Leap;
  }

  /** Time order is the order of the fields. */
  lemma EarlierIsBefore(f: Fields, g: Fields)
    requires Valid(f) && Valid(g)
    ensures Earlier(f, g) <==> Ms(f) < Ms(g)
  {
    hide DayNumber, DayMs, Valid, EarlierOfDay;
    TimesInOrder(f, g);
    TimesInOrder(g, f);
    if EarlierDate(f, g) {
      DatesInOrder(f, g);
    } else if EarlierDate(g, f) {
      DatesInOrder(g, f);
    } else {
      SameDateSameDay(f, g);
    }
  }

  lemma SameDateSameDay(f: Fields, g: Fields)
    requires SameDate(f, g)
    ensures DayNumber(f) == DayNumber(g)
  {
  }

  // ---------- text ----------

  /** Byte-wise order of texts. */
  predicate Less(a: string, b: string) {
    if a == [] || b == [] then a == [] && b != []
    else a[0] < b[0] || (a[0] == b[0] && Less(a[1..], b[1..]))
  }

  function DigitChar(n: nat): char
    requires n < 10
  {
    '0' + n as char
  }

  /** A number in exactly `width` digits. */
  function Padded(n: nat, width: nat): string
    decreases width
  {
    if width == 0 then "" else Padded(n / 10, width - 1) + [DigitChar(n % 10)]
  }

  function Clock(f: Fields): string {
    Padded(f.month, 2) + "-" + (Padded(f.day, 2) + "T" + (Padded(f.hour, 2) + ":" + (Padded(f.minute, 2) + ":"
      + (Padded(f.second, 2) + "." + (Padded(f.ms, 3) + "Z" + "")))))
  }

  /** Date.toISOString: four digits for the year, or a sign and six. */
  function Iso(f: Fields): string {
    if 0 <= f.year <= 9999 then Padded(f.year, 4) + "-" + Clock(f)
    else (if f.year < 0 then "-" else "+") + (Padded(YearDigits(f.year), 6) + "-" + Clock(f))
  }

  function YearDigits(y: int): nat { if y < 0 then -y else y }

  function Power(width: nat): nat { if width == 0 then 1 else 10 * Power(width - 1) }

  lemma {:induction false} PaddedLength(n: nat, width: nat)
    ensures |Padded(n, width)| == width
    decreases width
  {
    if width > 0 { PaddedLength(n / 10, width - 1); }
  }

  /** Equal-length prefixes decide first. */
  lemma {:induction false} LessConcat(a: string, b: string, x: string, y: string)
    requires |a| == |b|
    ensures Less(a + x, b + y) <==> Less(a, b) || (a == b && Less(x, y))
    decreases |a|
  {
    if a == [] {
      assert a + x == x && b + y == y;
    } else {
      LessConcat(a[1..], b[1..], x, y);
      assert (a + x)[1..] == a[1..] + x && (b + y)[1..] == b[1..] + y;
      assert a == b <==> a[0] == b[0] && a[1..] == b[1..];
    }
  }

  lemma {:induction false} PaddedOrder(m: nat, n: nat, width: nat)
    requires m < Power(width) && n < Power(width)
    ensures Less(Padded(m, width), Padded(n, width)) <==> m < n
    ensures Padded(m, width) == Padded(n, width) <==> m == n
    decreases width
  {
    if width > 0 {
      PaddedOrder(m / 10, n / 10, width - 1);
      PaddedLength(m / 10, width - 1);
      PaddedLength(n / 10, width - 1);
      var a, b := Padded(m / 10, width - 1), Padded(n / 10, width - 1);
      LessConcat(a, b, [DigitChar(m % 10)], [DigitChar(n % 10)]);
      DigitOrder(m % 10, n % 10);
      LastDigit(a, b, DigitChar(m % 10), DigitChar(n % 10));
    }
  }

  lemma DigitOrder(m: nat, n: nat)
    requires m < 10 && n < 10
    ensures Less([DigitChar(m)], [DigitChar(n)]) <==> m < n
    ensures DigitChar(m) == DigitChar(n) <==> m == n
  {
  }

  lemma LastDigit(a: string, b: string, x: char, y: char)
    requires |a| == |b|
    ensures a + [x] == b + [y] <==> a == b && x == y
  {
    if a + [x] == b + [y] {
      assert (a + [x])[..|a|] == a && (b + [y])[..|b|] == b;
      assert (a + [x])[|a|] == x && (b + [y])[|b|] == y;
    }
  }

  /** One padded number, a separator and the rest. */
  lemma FieldOrder(m: nat, n: nat, width: nat, separator: string, x: string, y: string)
    requires m < Power(width) && n < Power(width)
    ensures Less(Padded(m, width) + separator + x, Padded(n, width) + separator + y) <==> m < n || (m == n && Less(x, y))
  {
    hide Padded, Power;
    PaddedLength(m, width);
    PaddedLength(n, width);
    PaddedOrder(m, n, width);
    assert Padded(m, width) + separator + x == Padded(m, width) + (separator + x);
    assert Padded(n, width) + separator + y == Padded(n, width) + (separator + y);
    LessConcat(Padded(m, width), Padded(n, width), separator + x, separator + y);
    LessConcat(separator, separator, x, y);
    NotLessItself(separator);
  }

  lemma {:induction false} NotLessItself(s: string)
    ensures !Less(s, s)
  {
    if s != [] { NotLessItself(s[1..]); }
  }

  lemma Powers()
    ensures Power(2) == 100 && Power(3) == 1000 && Power(4) == 10_000 && Power(6) == 1_000_000
  {
  }

  lemma ClockOrder(f: Fields, g: Fields)
    requires Valid(f) && Valid(g)
    ensures Less(Clock(f), Clock(g))
       <==> f.month < g.month || (f.month == g.month && (f.day < g.day || (f.day == g.day && EarlierOfDay(f, g))))
  {
    hide Padded, Power, Less, Leap;
    Powers();
    var f5, g5 := Padded(f.ms, 3) + "Z" + "", Padded(g.ms, 3) + "Z" + "";
    FieldOrder(f.ms, g.ms, 3, "Z", "", "");
    NotLessItself("");
    var f4, g4 := Padded(f.second, 2) + "." + f5, Padded(g.second, 2) + "." + g5;
    FieldOrder(f.second, g.second, 2, ".", f5, g5);
    var f3, g3 := Padded(f.minute, 2) + ":" + f4, Padded(g.minute, 2) + ":" + g4;
    FieldOrder(f.minute, g.minute, 2, ":", f4, g4);
    var f2, g2 := Padded(f.hour, 2) + ":" + f3, Padded(g.hour, 2) + ":" + g3;
    FieldOrder(f.hour, g.hour, 2, ":", f3, g3);
    var f1, g1 := Padded(f.day, 2) + "T" + f2, Padded(g.day, 2) + "T" + g2;
    FieldOrder(f.day, g.day, 2, "T", f2, g2);
    FieldOrder(f.month, g.month, 2, "-", f1, g1);
  }

  // ---------- the order of stored texts ----------

  /** Texts of expanded years sort by their sign: `+` first, then `-`, then the four-digit years. */
  function Band(y: int): nat { if y > 9999 then 0 else if y < 0 then 1 else 2 }

  /** Within one band texts sort by time, except that the years before year 0 sort backwards. */
  lemma SameBandOrder(f: Fields, g: Fields)
    requires Valid(f) && Valid(g) && Band(f.year) == Band(g.year)
    ensures Less(Iso(f), Iso(g)) <==> if f.year < 0 && f.year != g.year then f.year > g.year else Ms(f) < Ms(g)
  {
    hide Padded, Power, Less, Clock, Valid, Ms;
    YearsFit(f);
    YearsFit(g);
    ClockOrder(f, g);
    EarlierIsBefore(f, g);
    var width := if 0 <= f.year <= 9999 then 4 else 6;
    FieldOrder(YearDigits(f.year), YearDigits(g.year), width, "-", Clock(f), Clock(g));
    if width == 6 {
      var sign := if f.year < 0 then "-" else "+";
      LessConcat(sign, sign, Padded(YearDigits(f.year), 6) + "-" + Clock(f), Padded(YearDigits(g.year), 6) + "-" + Clock(g));
      NotLessItself(sign);
    }
  }

  lemma YearsFit(f: Fields)
    requires Valid(f)
    ensures YearDigits(f.year) < Power(6) && (0 <= f.year <= 9999 ==> YearDigits(f.year) == f.year < Power(4))
  {
    Powers();
  }

  lemma FirstChar(f: Fields)
    ensures Iso(f) != [] && match Band(f.year)
                            case 0 => Iso(f)[0] == '+'
                            case 1 => Iso(f)[0] == '-'
                            case _ => '0' <= Iso(f)[0] <= '9'
  {
    hide Clock;
    if 0 <= f.year <= 9999 {
      PaddedLength(f.year, 4);
      PaddedDigits(f.year, 4);
      assert Iso(f)[0] == Padded(f.year, 4)[0];
    }
  }

  lemma {:induction false} PaddedDigits(n: nat, width: nat)
    ensures forall i :: 0 <= i < |Padded(n, width)| ==> '0' <= Padded(n, width)[i] <= '9'
    decreases width
  {
    if width > 0 { PaddedDigits(n / 10, width - 1); }
  }

  lemma BandsInOrder(f: Fields, g: Fields)
    requires Band(f.year) != Band(g.year)
    ensures Less(Iso(f), Iso(g)) <==> Band(f.year) < Band(g.year)
  {
    FirstChar(f);
    FirstChar(g);
    hide Iso;
  }

  // ---------- instants ----------

  const DAY_MS := 86_400_000

  /** The year a day lies in, counting days from the start of year 0. */
  function YearOfDay(day: int): (y: int)
    ensures YearStart(y) <= day < YearStart(y + 1)
  {
    var guess := 400 * day / 146_097;
    GuessIsClose(day);
    if day < YearStart(guess) then guess - 1 else if day < YearStart(guess + 1) then guess else guess + 1
  }

  /** Four hundred years are 146,097 days. */
  lemma GuessIsClose(day: int)
    ensures var guess := 400 * day / 146_097; YearStart(guess - 1) <= day < YearStart(guess + 2)
  {
    var guess := 400 * day / 146_097;
    assert 146_097 * guess <= 400 * day < 146_097 * guess + 146_097;
    YearStartBounds(guess - 1);
    YearStartBounds(guess + 2);
    hide YearStart;
  }

  lemma YearStartBounds(y: int)
    ensures 146_097 * y - 396 <= 400 * YearStart(y) <= 146_097 * y + 699
  {
  }

  lemma OneYear(day: int, y: int)
    requires YearStart(y) <= day < YearStart(y + 1)
    ensures YearOfDay(day) == y
  {
    var found := YearOfDay(day);
    if found < y { YearsGrow(found + 1, y); } else if y < found { YearsGrow(y + 1, found); }
  }

  /** The month a day of the year lies in, searched from m on. */
  function MonthOfDay(y: int, day: int, m: nat): (month: nat)
    requires 1 <= m <= 12 && MonthStart(y, m) <= day
    ensures m <= month <= 12 && MonthStart(y, month) <= day && (month < 12 ==> day < MonthStart(y, month + 1))
    decreases 12 - m
  {
    if m == 12 || day < MonthStart(y, m + 1) then m else MonthOfDay(y, day, m + 1)
  }

  /** Days from the start of year 0. */
  function DayOf(ms: int): int { ms / DAY_MS + EPOCH_DAY }

  /** The calendar fields of an instant. */
  function FieldsOf(ms: int): Fields {
    var day, time := DayOf(ms), ms % DAY_MS;
    var y := YearOfDay(day);
    var month := MonthOfDay(y, day - YearStart(y), 1);
    Fields(y, month, day - YearStart(y) - MonthStart(y, month) + 1, time / 3_600_000, time / 60_000 % 60, time / 1000 % 60, time % 1000)
  }

  function YearOf(ms: int): int { YearOfDay(DayOf(ms)) }

  /** The text an instant is stored as. */
  function ToIso(ms: int): string { Iso(FieldsOf(ms)) }

  lemma TimeSplits(time: nat)
    requires time < DAY_MS
    ensures var h, m, s, ms := time / 3_600_000, time / 60_000 % 60, time / 1000 % 60, time % 1000;
            h < 24 && ((h * 60 + m) * 60 + s) * 1000 + ms == time
  {
    assert time / 60_000 == time / 1000 / 60;
    assert time / 3_600_000 == time / 60_000 / 60;
  }

  /** Every instant of a Date has fields in the calendar, and they are its own. */
  lemma FieldsOfInstant(ms: int)
    requires DateOk(ms)
    ensures Valid(FieldsOf(ms)) && Ms(FieldsOf(ms)) == ms && FieldsOf(ms).year == YearOf(ms)
  {
    hide MonthStart, MonthDays, YearStart, YearOfDay, MonthOfDay;
    var day, f := DayOf(ms), FieldsOf(ms);
    TimeSplits(ms % DAY_MS);
    DateOfDay(day);
    hide FieldsOf;
  }

  lemma DateOfDay(day: int)
    requires -100_000_000 <= day - EPOCH_DAY <= 100_000_000
    ensures var y := YearOfDay(day);
            var month := MonthOfDay(y, day - YearStart(y), 1);
            && FIRST_YEAR <= y <= LAST_YEAR && 1 <= month <= 12
            && 1 <= day - YearStart(y) - MonthStart(y, month) + 1 <= MonthDays(y, month)
  {
    hide MonthDays, YearStart, YearOfDay, MonthOfDay;
    var y := YearOfDay(day);
    YearsOfDates(day, y);
    YearLength(y);
    MonthEnds(y, MonthOfDay(y, day - YearStart(y), 1));
  }

  lemma MonthEnds(y: int, m: nat)
    requires 1 <= m <= 12
    ensures m < 12 ==> MonthStart(y, m + 1) == MonthStart(y, m) + MonthDays(y, m)
    ensures MonthDays(y, 12) == 31
  {
  }

  lemma YearsOfDates(day: int, y: int)
    requires -100_000_000 <= day - EPOCH_DAY <= 100_000_000 && YearStart(y) <= day < YearStart(y + 1)
    ensures FIRST_YEAR <= y <= LAST_YEAR
  {
    if y < FIRST_YEAR { YearsGrow(y + 1, FIRST_YEAR); } else if y > LAST_YEAR { YearsGrow(LAST_YEAR + 1, y); }
  }

  /** Fields of the calendar are those of their instant. */
  lemma InstantOfFields(f: Fields)
    requires Valid(f) && DateOk(Ms(f))
    ensures FieldsOf(Ms(f)) == f
  {
    FieldsOfInstant(Ms(f));
    hide FieldsOf, Ms, Valid;
    EarlierIsBefore(f, FieldsOf(Ms(f)));
    EarlierIsBefore(FieldsOf(Ms(f)), f);
  }

  /** Whether an instant is stored as a text before another's: expanded years first, later ones before
      negative ones, then the four-digit years; by time inside, except that negative years run backwards. */
  predicate StoredBefore(a: int, b: int) {
    var y, z := YearOf(a), YearOf(b);
    if Band(y) != Band(z) then Band(y) < Band(z)
    else if y < 0 && y != z then y > z
    else a < b
  }

  /** The order of the stored texts, for every instant a Date can hold. */
  lemma TextOrderIsStoredOrder(a: int, b: int)
    requires DateOk(a) && DateOk(b)
    ensures Less(ToIso(a), ToIso(b)) <==> StoredBefore(a, b)
  {
    hide Valid, Iso, Ms, YearOf, FieldsOf, Band, DateOk, Less;
    var f, g := FieldsOf(a), FieldsOf(b);
    FieldsOfInstant(a);
    FieldsOfInstant(b);
    if Band(f.year) == Band(g.year) { SameBandOrder(f, g); } else { BandsInOrder(f, g); }
  }

  /** Midnight of 1 January 10000. */
  const YEAR_10000_MS := 253_402_300_800_000

  /** Whether no instant before this one is stored as a text at or after its own. */
  predicate KeepsOrder(until: int) { 0 <= YearOf(until) <= 9999 || YearOf(until) == FIRST_YEAR }

  lemma YearsFollowTime(a: int, b: int)
    requires a <= b
    ensures YearOf(a) <= YearOf(b)
  {
    hide YearOfDay, YearStart, DayOf;
    DaysFollowTime(a, b);
    YearsFollowDays(DayOf(a), DayOf(b));
  }

  lemma DaysFollowTime(a: int, b: int)
    requires a <= b
    ensures DayOf(a) <= DayOf(b)
  {
  }

  lemma YearsFollowDays(d: int, e: int)
    requires d <= e
    ensures YearOfDay(d) <= YearOfDay(e)
  {
    var y, z := YearOfDay(d), YearOfDay(e);
    hide YearOfDay, YearStart;
    if y > z { YearsGrow(z + 1, y); }
  }

  lemma KeptOrder(until: int, now: int)
    requires KeepsOrder(until) && DateOk(now) && !StoredBefore(now, until)
    ensures until <= now
  {
    hide YearOf;
    FirstInstants();
    if now < until {
      YearsFollowTime(-MAX_DATE_MS, now);
      YearsFollowTime(now, until);
    }
  }

  /** An instant before this one whose text is at or after its own, when there is one. */
  lemma LostOrder(until: int) returns (now: int)
    requires !KeepsOrder(until) && DateOk(until)
    ensures DateOk(now) && now < until && !StoredBefore(now, until)
    ensures forall t :: DateOk(t) && StoredBefore(t, until) ==> !StoredBefore(now, t)
  {
    hide YearOf;
    FirstInstants();
    now := if YearOf(until) > 9999 then YEAR_10000_MS - 1 else -MAX_DATE_MS;
    YearsFollowTime(-MAX_DATE_MS, until);
    if until <= now { YearsFollowTime(until, now); }
    forall t | DateOk(t) && StoredBefore(t, until) ensures !StoredBefore(now, t) {
      YearsFollowTime(-MAX_DATE_MS, t);
      if YearOf(until) > 9999 && now < t { YearsFollowTime(YEAR_10000_MS, t); }
    }
  }

  lemma Since10000(ms: int)
    ensures YearOf(ms) > 9999 <==> YEAR_10000_MS <= ms
  {
    hide YearOf;
    FirstInstants();
    if YEAR_10000_MS <= ms { YearsFollowTime(YEAR_10000_MS, ms); } else { YearsFollowTime(ms, YEAR_10000_MS - 1); }
  }

  lemma FirstInstants()
    ensures YearOf(-MAX_DATE_MS) == FIRST_YEAR && YearOf(YEAR_10000_MS - 1) == 9999 && YearOf(YEAR_10000_MS) == 10_000
  {
    OneYear(DayOf(-MAX_DATE_MS), FIRST_YEAR);
    OneYear(DayOf(YEAR_10000_MS - 1), 9999);
    OneYear(DayOf(YEAR_10000_MS), 10_000);
  }
}

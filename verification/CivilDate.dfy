/**
 The two civil-date conversions (log timestamps and build date), against a calendar that
 is counted out day by day.
 */
module CivilDate {

  datatype Date = Date(year: nat, month: nat, day: nat)
  datatype Clock = Clock(hour: nat, minute: nat, second: nat)

  const TWO_TO_32: nat := 0x1_0000_0000
  const TWO_TO_64: nat := 0x1_0000_0000_0000_0000

  // ── The code ──────────────────────────────────────────────────────────────

  function YearOfEra(doe: nat): nat
    requires doe < 146097
  {
    (doe - doe / 1460 + doe / 36524 - doe / 146096) / 365
  }

  function DayOfYear(doe: nat): int
    requires doe < 146097
  {
    var yoe := YearOfEra(doe);
    doe - (365 * yoe + yoe / 4 - yoe / 100)
  }

  // Month (March is 0) and day of a day of the year that starts on 1 March.
  function MonthPart(doy: nat): nat {
    (5 * doy + 2) / 153
  }

  function FromMarch(y: nat, doy: nat): Date
    requires doy <= 365
  {
    var mp := MonthPart(doy);
    var d := doy - (153 * mp + 2) / 5 + 1;
    var m := if mp < 10 then mp + 3 else mp - 9;
    Date(if m <= 2 then y + 1 else y, m, d)
  }

  // The body both forms share, on exact integers.
  function CivilFromDays(days: nat): Date {
    EraDate((days + 719468) / 146097, (days + 719468) % 146097)
  }

  // epoch_to_ymd_hms: u64 arithmetic, the year narrowed to u32.
  function EpochToYmdHms(secs: nat): (Date, Clock)
    requires secs < TWO_TO_64
  {
    var date := CivilFromDays(secs / 86400);
    (date.(year := date.year % TWO_TO_32), Clock(secs / 3600 % 24, secs / 60 % 60, secs % 60))
  }

  // Division of signed integers, toward zero.
  function TruncDiv(a: int, b: int): int
    requires b > 0
  {
    if a >= 0 then a / b else -(-a / b)
  }

  // civil_date_from_unix: i64 arithmetic, the era adjusted for negative day counts.
  function CivilDateFromUnix(secs: nat): Date
    requires secs < TWO_TO_64
  {
    var z: int := secs / 86400 + 719468;
    var era := TruncDiv(if z >= 0 then z else z - 146096, 146097);
    var doe := z - era * 146097;
    EraSplit(doe);
    FromMarch(YearOfEra(doe) + era * 400, DayOfYear(doe))
  }

  // ── The calendar ──────────────────────────────────────────────────────────

  predicate IsLeap(y: nat) {
    y % 4 == 0 && (y % 100 != 0 || y % 400 == 0)
  }

  function DaysInMonth(y: nat, m: nat): nat {
    if m == 2 then (if IsLeap(y) then 29 else 28)
    else if m == 4 || m == 6 || m == 9 || m == 11 then 30
    else 31
  }

  predicate ValidDate(d: Date) {
    1 <= d.month <= 12 && 1 <= d.day <= DaysInMonth(d.year, d.month)
  }

  function Tomorrow(d: Date): Date {
    if d.day < DaysInMonth(d.year, d.month) then d.(day := d.day + 1)
    else if d.month < 12 then Date(d.year, d.month + 1, 1)
    else Date(d.year + 1, 1, 1)
  }

  const EPOCH := Date(1970, 1, 1)

  // The date n days after 1 January 1970, by turning n pages.
  function DateAfter(n: nat): Date {
    if n == 0 then EPOCH else Tomorrow(DateAfter(n - 1))
  }

  function DaysBeforeYear(y: nat): nat
    requires y >= 1970
  {
    if y == 1970 then 0 else DaysBeforeYear(y - 1) + if IsLeap(y - 1) then 366 else 365
  }

  function DaysBeforeMonth(y: nat, m: nat): nat {
    if m <= 1 then 0 else DaysBeforeMonth(y, m - 1) + DaysInMonth(y, m - 1)
  }

  // How many days a date lies after 1 January 1970.
  function DayNumber(d: Date): nat
    requires d.year >= 1970 && d.day >= 1
  {
    DaysBeforeYear(d.year) + DaysBeforeMonth(d.year, d.month) + d.day - 1
  }

  // ── Splitting the era ─────────────────────────────────────────────────────

  // Century, four-year group, day of that group, and year of the group.
  function Century(doe: nat): nat { if doe / 36524 < 3 then doe / 36524 else 3 }
  function Group(doe: nat): int { (doe - 36524 * Century(doe)) / 1461 }
  function GroupDay(doe: nat): int { doe - 36524 * Century(doe) - 1461 * Group(doe) }
  function GroupYear(doe: nat): int { if GroupDay(doe) / 365 < 3 then GroupDay(doe) / 365 else 3 }

  lemma GroupBounds(doe: nat)
    requires doe < 146097
    ensures 0 <= Century(doe) <= 3 && 0 <= Group(doe) <= 24 && 0 <= GroupDay(doe) <= 1460 && 0 <= GroupYear(doe) <= 3
    ensures GroupDay(doe) == 1460 ==> Group(doe) < 24 || Century(doe) == 3
  {
  }

  // The one-line year formula against the split.
  lemma EraSplit(doe: nat)
    requires doe < 146097
    ensures YearOfEra(doe) == 100 * Century(doe) + 4 * Group(doe) + GroupYear(doe) < 400
    ensures DayOfYear(doe) == GroupDay(doe) - 365 * GroupYear(doe)
    ensures 0 <= DayOfYear(doe) <= 365
  {
    GroupBounds(doe);
    var c, q, t := Century(doe), Group(doe), GroupDay(doe);
    YearFormula(doe, c, q, t);
    var j := GroupYear(doe);
    assert YearOfEra(doe) == 100 * c + 4 * q + j;
    assert (100 * c + 4 * q + j) / 4 == 25 * c + q;
    assert (100 * c + 4 * q + j) / 100 == c;
  }

  lemma YearFormula(doe: nat, c: nat, q: nat, t: nat)
    requires doe == 36524 * c + 1461 * q + t && c <= 3 && q <= 24 && t <= 1460 && doe < 146097
    requires t == 1460 ==> q < 24 || c == 3
    ensures YearOfEra(doe) == 100 * c + 4 * q + if t / 365 < 3 then t / 365 else 3
  {
    var carry := if 24 * c + q + t >= 1460 then 1 else 0;
    assert doe / 1460 == 25 * c + q + carry by {
      assert doe == 1460 * (25 * c + q) + (24 * c + q + t);
    }
    if doe == 146096 {
      assert c == 3 && q == 24 && t == 1460 by { TopOfEra(c, q, t); }
    } else {
      assert doe / 146096 == 0;
      assert doe / 36524 == c;
      assert doe - doe / 1460 + doe / 36524 == 365 * (100 * c + 4 * q) + (t - carry);
    }
  }

  lemma TopOfEra(c: nat, q: nat, t: nat)
    requires 36524 * c + 1461 * q + t == 146096 && c <= 3 && q <= 24 && t <= 1460
    ensures c == 3 && q == 24 && t == 1460
  {
  }

  // ── Months ────────────────────────────────────────────────────────────────

  function MonthStart(mp: nat): nat { (153 * mp + 2) / 5 }

  lemma MonthSplit(doy: nat)
    requires doy <= 365
    ensures MonthPart(doy) <= 11 && MonthStart(MonthPart(doy)) <= doy < MonthStart(MonthPart(doy) + 1)
  {
  }

  lemma MonthUnique(doy: nat, mp: nat)
    requires mp <= 11 && MonthStart(mp) <= doy < MonthStart(mp + 1)
    ensures MonthPart(doy) == mp
  {
  }

  function MonthOf(mp: nat): nat { if mp < 10 then mp + 3 else mp - 9 }

  lemma MonthLength(y: nat, mp: nat)
    requires mp < 11
    ensures DaysInMonth(if MonthOf(mp) <= 2 then y + 1 else y, MonthOf(mp)) == MonthStart(mp + 1) - MonthStart(mp)
  {
    if mp == 0 {} else if mp == 1 {} else if mp == 2 {} else if mp == 3 {} else if mp == 4 {} else if mp == 5 {}
    else if mp == 6 {} else if mp == 7 {} else if mp == 8 {} else if mp == 9 {} else {}
  }

  // One day on within a year that starts in March.
  lemma NextInYear(y: nat, doy: nat)
    requires doy < 365 && (doy == 364 ==> IsLeap(y + 1))
    ensures FromMarch(y, doy + 1) == Tomorrow(FromMarch(y, doy))
  {
    MonthSplit(doy);
    var mp := MonthPart(doy);
    if mp < 11 {
      MonthLength(y, mp);
    }
    MonthUnique(doy + 1, if doy + 1 < MonthStart(mp + 1) then mp else mp + 1);
  }

  lemma NewYear(y: nat)
    ensures Tomorrow(FromMarch(y, if IsLeap(y + 1) then 365 else 364)) == FromMarch(y + 1, 0)
  {
  }

  lemma Mod4(k: nat, n: nat)
    ensures (k + 4 * n) % 4 == k % 4
  {
  }

  lemma Mod100(k: nat, n: nat)
    ensures (k + 100 * n) % 100 == k % 100
  {
  }

  lemma Mod400(k: nat, n: nat)
    ensures (k + 400 * n) % 400 == k % 400
  {
  }

  // 29 February falls in the next calendar year of this March year exactly when the
  // four-year group is complete and the century does not skip it.
  lemma LeapRule(era: nat, c: nat, q: nat, j: nat)
    requires c <= 3 && q <= 24 && j <= 3
    ensures IsLeap(100 * c + 4 * q + j + era * 400 + 1) <==> j == 3 && (q < 24 || c == 3)
  {
    Mod4(j + 1, 25 * c + q + 100 * era);
    Mod100(4 * q + j + 1, c + 4 * era);
    Mod400(100 * c + 4 * q + j + 1, era);
  }

  // Day and year of the next group day.
  lemma GroupNext(doe: nat)
    requires doe < 146096
    ensures var c, q, t := Century(doe), Group(doe), GroupDay(doe);
            if t == 1460 || (t == 1459 && q == 24 && c < 3) then
              && GroupDay(doe + 1) == 0
              && 100 * Century(doe + 1) + 4 * Group(doe + 1) == 100 * c + 4 * q + 4
            else Century(doe + 1) == c && Group(doe + 1) == q && GroupDay(doe + 1) == t + 1
  {
    GroupBounds(doe);
  }

  function CappedYear(t: nat): nat { if t / 365 < 3 then t / 365 else 3 }

  lemma YearNext(t: nat)
    requires t <= 1460
    ensures var j := CappedYear(t);
            && 365 * j <= t && (j < 3 ==> t < 365 * j + 365)
            && (t < 1460 ==> CappedYear(t + 1) == if t == 365 * j + 364 && j < 3 then j + 1 else j)
  {
  }

  // The next day of the era is the next day of its March year, or the next year's first.
  lemma EraNext(doe: nat, leap: bool)
    requires doe < 146096 && (leap <==> GroupYear(doe) == 3 && (Group(doe) < 24 || Century(doe) == 3))
    ensures var last := if leap then 365 else 364;
            && 0 <= DayOfYear(doe) <= last
            && if DayOfYear(doe) == last then YearOfEra(doe + 1) == YearOfEra(doe) + 1 && DayOfYear(doe + 1) == 0
               else YearOfEra(doe + 1) == YearOfEra(doe) && DayOfYear(doe + 1) == DayOfYear(doe) + 1
  {
    hide YearOfEra, DayOfYear, Century, Group, GroupDay;
    GroupBounds(doe);
    GroupNext(doe);
    var t := GroupDay(doe);
    YearNext(t);
    assert GroupYear(doe) == CappedYear(t) && GroupYear(doe + 1) == CappedYear(GroupDay(doe + 1));
    EraSplit(doe);
    EraSplit(doe + 1);
  }

  // Division is determined by its result.
  lemma EraUnique(z: nat, era: nat, doe: nat)
    requires z == era * 146097 + doe && doe < 146097
    ensures z / 146097 == era && z % 146097 == doe
  {
  }

  function EraDate(era: nat, doe: nat): Date
    requires doe < 146097
  {
    EraSplit(doe);
    FromMarch(YearOfEra(doe) + era * 400, DayOfYear(doe))
  }

  lemma CivilOfEra(days: nat, era: nat, doe: nat)
    requires days + 719468 == era * 146097 + doe && doe < 146097
    ensures CivilFromDays(days) == EraDate(era, doe)
  {
    EraUnique(days + 719468, era, doe);
  }

  lemma EraOf(z: nat) returns (era: nat, doe: nat)
    ensures z == era * 146097 + doe && doe < 146097
  {
    era, doe := z / 146097, z % 146097;
  }

  // One day on from any day.
  lemma CivilTomorrow(days: nat)
    ensures CivilFromDays(days + 1) == Tomorrow(CivilFromDays(days))
  {
    hide *;
    var era, doe := EraOf(days + 719468);
    if doe < 146096 {
      CivilOfEra(days, era, doe);
      CivilOfEra(days + 1, era, doe + 1);
      TomorrowInEra(doe, era);
    } else {
      CivilOfEra(days, era, 146096);
      CivilOfEra(days + 1, era + 1, 0);
      TomorrowNextEra(era);
    }
  }

  lemma TomorrowInEra(doe: nat, era: nat)
    requires doe < 146096
    ensures EraDate(era, doe + 1) == Tomorrow(EraDate(era, doe))
  {
    var y := YearOfEra(doe) + era * 400;
    LeapOfEra(doe, era);
    EraNext(doe, IsLeap(y + 1));
    if DayOfYear(doe) == if IsLeap(y + 1) then 365 else 364 {
      NewYear(y);
    } else {
      NextInYear(y, DayOfYear(doe));
    }
  }

  lemma LeapOfEra(doe: nat, era: nat)
    requires doe < 146097
    ensures IsLeap(YearOfEra(doe) + era * 400 + 1) <==> GroupYear(doe) == 3 && (Group(doe) < 24 || Century(doe) == 3)
  {
    EraSplit(doe);
    GroupBounds(doe);
    LeapRule(era, Century(doe), Group(doe), GroupYear(doe));
  }

  lemma EraEnds()
    ensures YearOfEra(146096) == 399 && DayOfYear(146096) == 365 && YearOfEra(0) == 0 && DayOfYear(0) == 0
  {
  }

  lemma LastYearIsLong(y: nat, era: nat)
    requires y == 399 + era * 400
    ensures Tomorrow(FromMarch(y, 365)) == FromMarch(y + 1, 0)
  {
    LeapRule(era, 3, 24, 3);
    NewYear(y);
  }

  lemma EraDateIs(era: nat, doe: nat, yoe: nat, doy: nat)
    requires doe < 146097 && YearOfEra(doe) == yoe && DayOfYear(doe) == doy && doy <= 365
    ensures EraDate(era, doe) == FromMarch(yoe + era * 400, doy)
  {
    hide FromMarch, YearOfEra, DayOfYear;
  }

  lemma TomorrowNextEra(era: nat)
    ensures EraDate(era + 1, 0) == Tomorrow(EraDate(era, 146096))
  {
    hide *;
    EraEnds();
    EraDateIs(era, 146096, 399, 365);
    EraDateIs(era + 1, 0, 0, 0);
    LastYearIsLong(399 + era * 400, era);
  }

  // ── The code against the calendar ─────────────────────────────────────────

  lemma EpochInEra()
    ensures YearOfEra(135080) == 369 && DayOfYear(135080) == 306 && FromMarch(1969, 306) == EPOCH
  {
  }

  lemma CivilOfEpoch()
    ensures CivilFromDays(0) == EPOCH
  {
    hide *;
    EpochInEra();
    CivilOfEra(0, 4, 135080);
    EraDateIs(4, 135080, 369, 306);
  }

  // The date computed for day n is the one n pages after 1 January 1970.
  lemma {:induction false} CivilIsCalendar(n: nat)
    ensures CivilFromDays(n) == DateAfter(n)
  {
    hide CivilFromDays, Tomorrow;
    if n == 0 {
      CivilOfEpoch();
    } else {
      CivilIsCalendar(n - 1);
      CivilTomorrow(n - 1);
    }
  }

  lemma {:induction false} CalendarIsValid(n: nat)
    ensures ValidDate(DateAfter(n)) && DateAfter(n).year >= 1970 && DayNumber(DateAfter(n)) == n
  {
    if n > 0 {
      CalendarIsValid(n - 1);
      NumberTomorrow(DateAfter(n - 1));
    }
  }

  lemma NumberTomorrow(d: Date)
    requires ValidDate(d) && d.year >= 1970
    ensures ValidDate(Tomorrow(d)) && DayNumber(Tomorrow(d)) == DayNumber(d) + 1
  {
    if d.day == DaysInMonth(d.year, d.month) && d.month == 12 {
      YearLength(d.year);
    }
  }

  lemma YearLength(y: nat)
    ensures DaysBeforeMonth(y, 12) + 31 == if IsLeap(y) then 366 else 365
  {
    assert DaysBeforeMonth(y, 2) == 31;
    assert DaysBeforeMonth(y, 4) == 31 + DaysInMonth(y, 2) + 31;
    assert DaysBeforeMonth(y, 6) == DaysBeforeMonth(y, 4) + 61;
    assert DaysBeforeMonth(y, 8) == DaysBeforeMonth(y, 6) + 61;
    assert DaysBeforeMonth(y, 10) == DaysBeforeMonth(y, 8) + 61;
  }

  // A valid date, and counting its days from 1970 gives the day number back.
  lemma CivilIsValid(n: nat)
    ensures ValidDate(CivilFromDays(n)) && CivilFromDays(n).year >= 1970
    ensures DayNumber(CivilFromDays(n)) == n
  {
    hide *;
    CivilIsCalendar(n);
    CalendarIsValid(n);
  }

  // ── Dates in order ────────────────────────────────────────────────────────

  predicate Earlier(a: Date, b: Date) {
    || a.year < b.year
    || (a.year == b.year && a.month < b.month)
    || (a.year == b.year && a.month == b.month && a.day < b.day)
  }

  lemma {:induction false} YearsApart(y: nat, k: nat)
    requires 1970 <= y < k
    ensures DaysBeforeYear(y) + (if IsLeap(y) then 366 else 365) <= DaysBeforeYear(k)
  {
    if y + 1 < k {
      YearsApart(y, k - 1);
    }
  }

  lemma {:induction false} MonthsApart(y: nat, m: nat, k: nat)
    requires 1 <= m < k
    ensures DaysBeforeMonth(y, m) + DaysInMonth(y, m) <= DaysBeforeMonth(y, k)
  {
    if m + 1 < k {
      MonthsApart(y, m, k - 1);
    }
  }

  lemma WithinYear(d: Date)
    requires ValidDate(d)
    ensures DaysBeforeMonth(d.year, d.month) + d.day <= if IsLeap(d.year) then 366 else 365
  {
    YearLength(d.year);
    if d.month < 12 {
      MonthsApart(d.year, d.month, 12);
    }
  }

  lemma EarlierCounts(a: Date, b: Date)
    requires ValidDate(a) && ValidDate(b) && a.year >= 1970 && b.year >= 1970 && Earlier(a, b)
    ensures DayNumber(a) < DayNumber(b)
  {
    if a.year < b.year {
      WithinYear(a);
      YearsApart(a.year, b.year);
    } else if a.month < b.month {
      MonthsApart(a.year, a.month, b.month);
    }
  }

  // The calendar's order is the order of day numbers, so the two conversions are inverse.
  lemma DateOrder(a: Date, b: Date)
    requires ValidDate(a) && ValidDate(b) && a.year >= 1970 && b.year >= 1970
    ensures Earlier(a, b) <==> DayNumber(a) < DayNumber(b)
    ensures a == b <==> DayNumber(a) == DayNumber(b)
  {
    if Earlier(a, b) {
      EarlierCounts(a, b);
    } else if Earlier(b, a) {
      EarlierCounts(b, a);
    } else {
      assert a == b;
    }
  }

  lemma CivilInverts(d: Date)
    requires ValidDate(d) && d.year >= 1970
    ensures CivilFromDays(DayNumber(d)) == d
  {
    hide CivilFromDays, DayNumber;
    CivilIsValid(DayNumber(d));
    DateOrder(CivilFromDays(DayNumber(d)), d);
  }

  // ── The two forms ─────────────────────────────────────────────────────────

  // The build date's form computes the same date, for every u64 second.
  lemma BuildDateIsCivil(secs: nat)
    requires secs < TWO_TO_64
    ensures CivilDateFromUnix(secs) == CivilFromDays(secs / 86400)
  {
    hide FromMarch, YearOfEra, DayOfYear;
    var z := secs / 86400 + 719468;
    assert z - z / 146097 * 146097 == z % 146097;
  }

  // The day number of 1 January 4294967296, the first whose year needs a 33rd bit.
  const WRAP_DAY: nat := 1_568_703_873_082

  lemma WrapDayInEra()
    ensures YearOfEra(35004) == 95 && DayOfYear(35004) == 306
    ensures FromMarch(4_294_967_295, 306) == Date(TWO_TO_32, 1, 1)
  {
  }

  lemma WrapDayIsNewYear()
    ensures CivilFromDays(WRAP_DAY) == Date(TWO_TO_32, 1, 1)
  {
    assert WRAP_DAY + 719468 == 10_737_418 * 146097 + 35004 && 95 + 10_737_418 * 400 == 4_294_967_295;
    hide *;
    WrapDayInEra();
    CivilOfEra(WRAP_DAY, 10_737_418, 35004);
    EraDateIs(10_737_418, 35004, 95, 306);
  }

  lemma BeforeNewYear(d: Date, y: nat)
    requires ValidDate(d)
    ensures Earlier(d, Date(y, 1, 1)) <==> d.year < y
  {
  }

  // The days before a New Year are those of earlier years.
  lemma NewYearDivides(n: nat, day: nat, y: nat)
    requires CivilFromDays(day) == Date(y, 1, 1)
    ensures CivilFromDays(n).year < y <==> n < day
  {
    hide CivilFromDays, DayNumber;
    CivilIsValid(n);
    CivilIsValid(day);
    DateOrder(CivilFromDays(n), Date(y, 1, 1));
    BeforeNewYear(CivilFromDays(n), y);
  }

  // The year fits 32 bits up to the day before that one.
  lemma YearFits(n: nat)
    ensures CivilFromDays(n).year < TWO_TO_32 <==> n < WRAP_DAY
  {
    hide CivilFromDays;
    WrapDayIsNewYear();
    NewYearDivides(n, WRAP_DAY, TWO_TO_32);
  }

  // The two forms agree exactly on the seconds before that day.
  lemma FormsAgree(secs: nat)
    requires secs < TWO_TO_64
    ensures CivilDateFromUnix(secs) == EpochToYmdHms(secs).0 <==> secs < WRAP_DAY * 86400
  {
    hide CivilDateFromUnix, CivilFromDays;
    BuildDateIsCivil(secs);
    YearFits(secs / 86400);
  }

  // Its first second is a u64, and the first on which the forms differ.
  lemma FormsDifferFirstAt()
    ensures WRAP_DAY * 86400 < TWO_TO_64
    ensures CivilDateFromUnix(WRAP_DAY * 86400) == Date(TWO_TO_32, 1, 1)
    ensures EpochToYmdHms(WRAP_DAY * 86400).0 == Date(0, 1, 1)
  {
    hide CivilDateFromUnix, CivilFromDays;
    BuildDateIsCivil(WRAP_DAY * 86400);
    WrapDayIsNewYear();
  }
}

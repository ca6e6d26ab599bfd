/**
 The timestamp that opens every log record: how it is printed, that it contains no
 separator of the record format, and that text order is time order up to year 9999.
 */
module LogStamp {
  import opened Bytes
  import opened CivilDate

  const SPACE: Byte := 32
  const NEWLINE: Byte := 10

  // ── Decimal printing ──────────────────────────────────────────────────────

  function Digit(d: nat): Byte
    requires d < 10
  {
    48 + d
  }

  function Decimal(n: nat): seq<Byte> {
    (if n < 10 then [] else Decimal(n / 10)) + [Digit(n % 10)]
  }

  function Zeros(k: nat): seq<Byte> {
    if k == 0 then [] else [Digit(0)] + Zeros(k - 1)
  }

  // A number printed with at least `width` digits.
  function Padded(n: nat, width: nat): seq<Byte> {
    var d := Decimal(n);
    if |d| < width then Zeros(width - |d|) + d else d
  }

  // <year>-<month>-<day>T<hour>:<minute>:<second>.<nanos>Z
  function Stamp(secs: nat, nanos: nat): seq<Byte>
    requires secs < TWO_TO_64
  {
    var (date, clock) := EpochToYmdHms(secs);
    Padded(date.year, 4) + [45] + (Padded(date.month, 2) + [45] + (Padded(date.day, 2) + [84]
    + (Padded(clock.hour, 2) + [58] + (Padded(clock.minute, 2) + [58] + (Padded(clock.second, 2) + [46]
    + (Padded(nanos, 9) + [90]))))))
  }

  // ── No separator inside a stamp ───────────────────────────────────────────

  predicate Plain(s: seq<Byte>) {
    SPACE !in s && NEWLINE !in s
  }

  lemma {:induction false} DecimalIsPlain(n: nat)
    ensures Plain(Decimal(n)) && |Decimal(n)| >= 1
  {
    if n >= 10 {
      DecimalIsPlain(n / 10);
    }
  }

  lemma {:induction false} ZerosArePlain(k: nat)
    ensures Plain(Zeros(k)) && |Zeros(k)| == k
  {
    if k > 0 {
      ZerosArePlain(k - 1);
    }
  }

  lemma PaddedIsPlain(n: nat, width: nat)
    ensures Plain(Padded(n, width))
  {
    DecimalIsPlain(n);
    if |Decimal(n)| < width {
      ZerosArePlain(width - |Decimal(n)|);
    }
  }

  // Whatever the clock says, the printed stamp holds neither a space nor a newline.
  lemma StampIsPlain(secs: nat, nanos: nat)
    requires secs < TWO_TO_64
    ensures Plain(Stamp(secs, nanos)) && Stamp(secs, nanos) != []
  {
    hide Padded, EpochToYmdHms;
    var (date, clock) := EpochToYmdHms(secs);
    PaddedIsPlain(date.year, 4);
    PaddedIsPlain(date.month, 2);
    PaddedIsPlain(date.day, 2);
    PaddedIsPlain(clock.hour, 2);
    PaddedIsPlain(clock.minute, 2);
    PaddedIsPlain(clock.second, 2);
    PaddedIsPlain(nanos, 9);
  }

  // ── Text order ────────────────────────────────────────────────────────────

  predicate TextLess(a: seq<Byte>, b: seq<Byte>) {
    b != [] && (a == [] || a[0] < b[0] || (a[0] == b[0] && TextLess(a[1..], b[1..])))
  }

  lemma {:induction false} TextAppend(a: seq<Byte>, b: seq<Byte>, x: seq<Byte>, y: seq<Byte>)
    requires |a| == |b|
    ensures TextLess(a + x, b + y) <==> TextLess(a, b) || (a == b && TextLess(x, y))
  {
    if a == [] {
      assert a + x == x && b + y == y;
    } else {
      TextAppend(a[1..], b[1..], x, y);
      assert (a + x)[1..] == a[1..] + x && (b + y)[1..] == b[1..] + y;
      assert a == [a[0]] + a[1..] && b == [b[0]] + b[1..];
    }
  }

  function Pow10(w: nat): nat {
    if w == 0 then 1 else 10 * Pow10(w - 1)
  }

  // Exactly w digits.
  function Fixed(n: nat, w: nat): seq<Byte> {
    if w == 0 then [] else Fixed(n / 10, w - 1) + [Digit(n % 10)]
  }

  lemma {:induction false} FixedOrder(n: nat, m: nat, w: nat)
    requires n < Pow10(w) && m < Pow10(w)
    ensures |Fixed(n, w)| == |Fixed(m, w)| == w
    ensures TextLess(Fixed(n, w), Fixed(m, w)) <==> n < m
    ensures Fixed(n, w) == Fixed(m, w) <==> n == m
  {
    if w > 0 {
      FixedOrder(n / 10, m / 10, w - 1);
      var x, y := [Digit(n % 10)], [Digit(m % 10)];
      TextAppend(Fixed(n / 10, w - 1), Fixed(m / 10, w - 1), x, y);
      assert TextLess(x, y) <==> n % 10 < m % 10 by {
        assert x[1..] == [] && y[1..] == [];
      }
      assert Fixed(n, w)[..w - 1] == Fixed(n / 10, w - 1) && Fixed(m, w)[..w - 1] == Fixed(m / 10, w - 1);
      assert Fixed(n, w)[w - 1] == x[0] && Fixed(m, w)[w - 1] == y[0];
    }
  }

  lemma {:induction false} PaddedIsFixed(n: nat, w: nat)
    requires w >= 1 && n < Pow10(w)
    ensures Padded(n, w) == Fixed(n, w)
  {
    if w == 1 {
      assert Fixed(n, 1) == Fixed(n / 10, 0) + [Digit(n % 10)];
    } else if n < 10 {
      FixedZero(w - 1);
      assert Decimal(n) == [Digit(n)];
    } else {
      PaddedIsFixed(n / 10, w - 1);
      var d := Decimal(n / 10);
      assert Decimal(n) == d + [Digit(n % 10)];
      if |d| < w - 1 {
        assert Zeros(w - 1 - |d|) + (d + [Digit(n % 10)]) == (Zeros(w - 1 - |d|) + d) + [Digit(n % 10)];
      }
    }
  }

  lemma {:induction false} FixedZero(w: nat)
    ensures Fixed(0, w) == Zeros(w)
  {
    if w > 0 {
      FixedZero(w - 1);
      ZerosEnd(w);
    }
  }

  lemma {:induction false} ZerosEnd(w: nat)
    requires w > 0
    ensures Zeros(w) == Zeros(w - 1) + [Digit(0)]
  {
    if w > 1 {
      ZerosEnd(w - 1);
      assert Zeros(w) == [Digit(0)] + (Zeros(w - 2) + [Digit(0)]);
    }
  }

  // A line of fixed-width fields, each closed by its separator.
  datatype Field = Field(value: nat, width: nat, sep: Byte)

  function Printed(fs: seq<Field>): seq<Byte> {
    if fs == [] then [] else Fixed(fs[0].value, fs[0].width) + [fs[0].sep] + Printed(fs[1..])
  }

  predicate FieldsLess(fs: seq<Field>, gs: seq<Field>)
    requires |fs| == |gs|
  {
    fs != [] && (fs[0].value < gs[0].value || (fs[0].value == gs[0].value && FieldsLess(fs[1..], gs[1..])))
  }

  predicate Alike(f: Field, g: Field) {
    f.width == g.width && f.sep == g.sep && f.value < Pow10(f.width) && g.value < Pow10(g.width)
  }

  lemma {:induction false} PrintedOrder(fs: seq<Field>, gs: seq<Field>)
    requires |fs| == |gs| && forall i | 0 <= i < |fs| :: Alike(fs[i], gs[i])
    ensures TextLess(Printed(fs), Printed(gs)) <==> FieldsLess(fs, gs)
  {
    if fs != [] {
      assert Alike(fs[0], gs[0]);
      PrintedOrder(fs[1..], gs[1..]);
      FixedOrder(fs[0].value, gs[0].value, fs[0].width);
      var a, b := Fixed(fs[0].value, fs[0].width), Fixed(gs[0].value, gs[0].width);
      var x, y := [fs[0].sep], [gs[0].sep];
      TextAppend(a, b, x + Printed(fs[1..]), y + Printed(gs[1..]));
      TextAppend(x, y, Printed(fs[1..]), Printed(gs[1..]));
      assert !TextLess(x, y) by { assert x[1..] == []; }
      assert a + [fs[0].sep] + Printed(fs[1..]) == a + (x + Printed(fs[1..]));
      assert b + [gs[0].sep] + Printed(gs[1..]) == b + (y + Printed(gs[1..]));
    }
  }

  // ── Time order ────────────────────────────────────────────────────────────

  function Fields(secs: nat, nanos: nat): seq<Field>
    requires secs < TWO_TO_64
  {
    var (date, clock) := EpochToYmdHms(secs);
    [Field(date.year, 4, 45), Field(date.month, 2, 45), Field(date.day, 2, 84), Field(clock.hour, 2, 58),
     Field(clock.minute, 2, 58), Field(clock.second, 2, 46), Field(nanos, 9, 90)]
  }

  lemma Powers()
    ensures Pow10(2) == 100 && Pow10(4) == 10_000 && Pow10(9) == 1_000_000_000
  {
  }

  lemma SevenFields(f: seq<Field>)
    requires |f| == 7
    ensures Printed(f) ==
            Fixed(f[0].value, f[0].width) + [f[0].sep] + (Fixed(f[1].value, f[1].width) + [f[1].sep]
            + (Fixed(f[2].value, f[2].width) + [f[2].sep] + (Fixed(f[3].value, f[3].width) + [f[3].sep]
            + (Fixed(f[4].value, f[4].width) + [f[4].sep] + (Fixed(f[5].value, f[5].width) + [f[5].sep]
            + (Fixed(f[6].value, f[6].width) + [f[6].sep]))))))
  {
    hide *;
    OneField(f);
    OneField(f[1..]);
    OneField(f[2..]);
    OneField(f[3..]);
    OneField(f[4..]);
    OneField(f[5..]);
    OneField(f[6..]);
    assert f[1..][1..] == f[2..] && f[2..][1..] == f[3..] && f[3..][1..] == f[4..];
    assert f[4..][1..] == f[5..] && f[5..][1..] == f[6..] && f[6..][1..] == [];
    NoField();
  }

  lemma NoField()
    ensures Printed([]) == []
  {
  }

  lemma OneField(f: seq<Field>)
    requires f != []
    ensures Printed(f) == Fixed(f[0].value, f[0].width) + [f[0].sep] + Printed(f[1..])
  {
  }

  // The first second of year 10000.
  const YEAR_10000: nat := 253_402_300_800

  lemma Day10000InEra()
    ensures YearOfEra(146037) == 399 && DayOfYear(146037) == 306 && FromMarch(9999, 306) == Date(10000, 1, 1)
  {
  }

  lemma Day10000IsNewYear()
    ensures CivilFromDays(2_932_897) == Date(10000, 1, 1)
  {
    assert 2_932_897 + 719468 == 24 * 146097 + 146037 && 399 + 24 * 400 == 9999;
    hide *;
    Day10000InEra();
    CivilOfEra(2_932_897, 24, 146037);
    EraDateIs(24, 146037, 399, 306);
  }

  lemma FourDigitYears(secs: nat)
    ensures CivilFromDays(secs / 86400).year <= 9999 <==> secs < YEAR_10000
  {
    hide CivilFromDays;
    Day10000IsNewYear();
    NewYearDivides(secs / 86400, 2_932_897, 10000);
  }

  lemma FieldsFit(secs: nat, nanos: nat)
    requires secs < YEAR_10000 && nanos < 1_000_000_000
    ensures forall i | 0 <= i < 7 :: Fields(secs, nanos)[i].value < Pow10(Fields(secs, nanos)[i].width)
  {
    hide CivilFromDays, Pow10;
    Powers();
    FourDigitYears(secs);
    CivilIsValid(secs / 86400);
  }

  lemma StampIsPrinted(secs: nat, nanos: nat)
    requires secs < YEAR_10000 && nanos < 1_000_000_000
    ensures Stamp(secs, nanos) == Printed(Fields(secs, nanos))
  {
    hide Padded, Fixed, Printed, Pow10, EpochToYmdHms, CivilFromDays;
    var fs := Fields(secs, nanos);
    FieldsFit(secs, nanos);
    SevenFields(fs);
    forall i | 0 <= i < 7 ensures Padded(fs[i].value, fs[i].width) == Fixed(fs[i].value, fs[i].width) {
      PaddedIsFixed(fs[i].value, fs[i].width);
    }
  }

  // Section 5.6 of RFC 3339: up to year 9999, sorting stamps as text sorts them in time.
  lemma StampOrder(secs: nat, nanos: nat, secs': nat, nanos': nat)
    requires secs < YEAR_10000 && nanos < 1_000_000_000 && secs' < YEAR_10000 && nanos' < 1_000_000_000
    ensures TextLess(Stamp(secs, nanos), Stamp(secs', nanos')) <==> secs < secs' || (secs == secs' && nanos < nanos')
  {
    hide *;
    StampIsPrinted(secs, nanos);
    StampIsPrinted(secs', nanos');
    StampFieldsOrder(secs, nanos, secs', nanos');
    FieldsOrder(secs, nanos, secs', nanos');
  }

  // Sorting the stamps of these two times as text sorts the times.
  ghost predicate SortsInTime(secs: nat, nanos: nat, secs': nat, nanos': nat)
    requires secs < TWO_TO_64 && secs' < TWO_TO_64
  {
    TextLess(Stamp(secs, nanos), Stamp(secs', nanos')) <==> secs < secs' || (secs == secs' && nanos < nanos')
  }

  // A stamp begins with the first digit of its year.
  lemma StampBegins(secs: nat, nanos: nat, y: nat)
    requires secs < TWO_TO_64 && CivilFromDays(secs / 86400).year == y < TWO_TO_32 && |Decimal(y)| >= 4
    ensures Stamp(secs, nanos) != [] && Stamp(secs, nanos)[0] == Decimal(y)[0]
  {
    hide CivilFromDays, Decimal;
    assert Padded(y, 4) == Decimal(y);
    hide Padded;
  }

  // That is as far as it goes: the last stamp of year 9999 sorts after the first of year 10000.
  lemma FirstToSortWrong()
    ensures !SortsInTime(YEAR_10000 - 1, 0, YEAR_10000, 0)
  {
    Day10000IsNewYear();
    LastOf9999();
    Digits();
    hide CivilFromDays, Decimal, Stamp;
    StampBegins(YEAR_10000 - 1, 0, 9999);
    StampBegins(YEAR_10000, 0, 10000);
  }

  lemma LastOf9999()
    ensures CivilFromDays(2_932_896).year == 9999
  {
    Day10000IsNewYear();
    hide CivilFromDays, DayNumber;
    CivilIsValid(2_932_896);
    CivilTomorrow(2_932_896);
  }

  lemma Digits()
    ensures Decimal(9999) == [57, 57, 57, 57] && Decimal(10000) == [49, 48, 48, 48, 48]
  {
    assert Decimal(9) == [57] && Decimal(99) == [57, 57] && Decimal(999) == [57, 57, 57];
    assert Decimal(1) == [49] && Decimal(10) == [49, 48] && Decimal(100) == [49, 48, 48];
    assert Decimal(1000) == [49, 48, 48, 48];
  }

  // Over the times before a limit, text order is time order exactly up to year 10000.
  lemma StampOrderIff(limit: nat)
    requires limit <= TWO_TO_64
    ensures limit <= YEAR_10000 <==>
            forall secs: nat, nanos: nat, secs': nat, nanos': nat
              | secs < limit && nanos < 1_000_000_000 && secs' < limit && nanos' < 1_000_000_000 ::
              SortsInTime(secs, nanos, secs', nanos')
  {
    if limit <= YEAR_10000 {
      forall secs: nat, nanos: nat, secs': nat, nanos': nat
        | secs < limit && nanos < 1_000_000_000 && secs' < limit && nanos' < 1_000_000_000
        ensures SortsInTime(secs, nanos, secs', nanos')
      {
        hide Stamp, TextLess;
        StampOrder(secs, nanos, secs', nanos');
      }
    } else {
      hide SortsInTime;
      FirstToSortWrong();
    }
  }

  lemma StampFieldsOrder(secs: nat, nanos: nat, secs': nat, nanos': nat)
    requires secs < YEAR_10000 && nanos < 1_000_000_000 && secs' < YEAR_10000 && nanos' < 1_000_000_000
    ensures |Fields(secs, nanos)| == |Fields(secs', nanos')|
    ensures TextLess(Printed(Fields(secs, nanos)), Printed(Fields(secs', nanos'))) <==>
            FieldsLess(Fields(secs, nanos), Fields(secs', nanos'))
  {
    hide TextLess, Printed, Pow10, EpochToYmdHms, CivilFromDays, FieldsLess;
    FieldsFit(secs, nanos);
    FieldsFit(secs', nanos');
    PrintedOrder(Fields(secs, nanos), Fields(secs', nanos'));
  }

  predicate ClockLess(a: Clock, b: Clock) {
    a.hour < b.hour || (a.hour == b.hour && (a.minute < b.minute || (a.minute == b.minute && a.second < b.second)))
  }

  lemma ClockOrder(secs: nat, secs': nat)
    requires secs < TWO_TO_64 && secs' < TWO_TO_64
    ensures ClockLess(EpochToYmdHms(secs).1, EpochToYmdHms(secs').1) <==> secs % 86400 < secs' % 86400
    ensures EpochToYmdHms(secs).1 == EpochToYmdHms(secs').1 <==> secs % 86400 == secs' % 86400
  {
    hide CivilFromDays;
    ClockValue(secs);
    ClockValue(secs');
  }

  lemma ClockValue(secs: nat)
    ensures secs % 86400 == secs / 3600 % 24 * 3600 + secs / 60 % 60 * 60 + secs % 60
  {
    var minutes, hours := secs / 60, secs / 3600;
    assert hours == minutes / 60;
    assert secs / 86400 == hours / 24;
  }

  lemma FieldsOrder(secs: nat, nanos: nat, secs': nat, nanos': nat)
    requires secs < YEAR_10000 && secs' < YEAR_10000
    ensures |Fields(secs, nanos)| == |Fields(secs', nanos')|
    ensures FieldsLess(Fields(secs, nanos), Fields(secs', nanos')) <==>
            secs < secs' || (secs == secs' && nanos < nanos')
  {
    hide CivilFromDays, DayNumber;
    var d, d' := CivilFromDays(secs / 86400), CivilFromDays(secs' / 86400);
    FourDigitYears(secs);
    FourDigitYears(secs');
    CivilIsValid(secs / 86400);
    CivilIsValid(secs' / 86400);
    DateOrder(d, d');
    ClockOrder(secs, secs');
    SevenLess(Fields(secs, nanos), Fields(secs', nanos'));
  }

  lemma SevenLess(f: seq<Field>, g: seq<Field>)
    requires |f| == |g| == 7
    ensures FieldsLess(f, g) <==>
            Earlier(Date(f[0].value, f[1].value, f[2].value), Date(g[0].value, g[1].value, g[2].value))
            || (f[0].value == g[0].value && f[1].value == g[1].value && f[2].value == g[2].value
                && (ClockLess(Clock(f[3].value, f[4].value, f[5].value), Clock(g[3].value, g[4].value, g[5].value))
                    || (f[3].value == g[3].value && f[4].value == g[4].value && f[5].value == g[5].value
                        && f[6].value < g[6].value)))
  {
    LessStep(f, g);
    LessStep(f[1..], g[1..]);
    LessStep(f[2..], g[2..]);
    LessStep(f[3..], g[3..]);
    LessStep(f[4..], g[4..]);
    LessStep(f[5..], g[5..]);
    LessStep(f[6..], g[6..]);
  }

  lemma LessStep(f: seq<Field>, g: seq<Field>)
    requires |f| == |g| > 0
    ensures FieldsLess(f, g) <==> f[0].value < g[0].value || (f[0].value == g[0].value && FieldsLess(f[1..], g[1..]))
  {
  }
}

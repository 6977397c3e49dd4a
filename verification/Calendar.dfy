/** Timestamps as stored: seconds to a civil date and time in UTC, its RFC 3339 text, and the order
    of that text. Seconds count from the start of year 0 of the proleptic Gregorian calendar. */
module Calendar {
  import opened TextOrdering

  // ---- the calendar ----

  predicate IsLeap(y: nat) {
    y % 4 == 0 && (y % 100 != 0 || y % 400 == 0)
  }

  function YearDays(y: nat): nat {
    if IsLeap(y) then 366 else 365
  }

  function MonthDays(y: nat, m: nat): nat {
    if m == 2 then if IsLeap(y) then 29 else 28
    else if m == 4 || m == 6 || m == 9 || m == 11 then 30
    else 31
  }

  function DaysBefore(y: nat): nat {
    if y == 0 then 0 else DaysBefore(y - 1) + YearDays(y - 1)
  }

  function DaysBeforeMonth(y: nat, m: nat): nat {
    if m <= 1 then 0 else DaysBeforeMonth(y, m - 1) + MonthDays(y, m - 1)
  }

  lemma TwoMonths(y: nat, m: nat)
    requires m >= 1
    ensures DaysBeforeMonth(y, m + 2) == DaysBeforeMonth(y, m) + MonthDays(y, m) + MonthDays(y, m + 1)
  {
    assert DaysBeforeMonth(y, m + 2) == DaysBeforeMonth(y, m + 1) + MonthDays(y, m + 1);
  }

  lemma MonthsFillYear(y: nat)
    ensures DaysBeforeMonth(y, 13) == YearDays(y)
  {
    assert DaysBeforeMonth(y, 3) == DaysBeforeMonth(y, 2) + MonthDays(y, 2) && DaysBeforeMonth(y, 2) == 31;
    TwoMonths(y, 3);
    TwoMonths(y, 5);
    TwoMonths(y, 7);
    TwoMonths(y, 9);
    TwoMonths(y, 11);
  }

  datatype Civil = Civil(year: nat, month: nat, day: nat, hour: nat, minute: nat, second: nat)

  predicate Valid(c: Civil) {
    && 1 <= c.month <= 12 && 1 <= c.day <= MonthDays(c.year, c.month)
    && c.hour < 24 && c.minute < 60 && c.second < 60
  }

  function DayOfYear(c: Civil): nat
    requires Valid(c)
  {
    DaysBeforeMonth(c.year, c.month) + (c.day - 1)
  }

  function Seconds(c: Civil): nat
    requires Valid(c)
  {
    (((DaysBefore(c.year) + DayOfYear(c)) * 24 + c.hour) * 60 + c.minute) * 60 + c.second
  }

  // ---- from seconds to a date ----

  function YearAt(y: nat, d: nat): (r: (nat, nat))
    ensures r.1 < YearDays(r.0)
    ensures DaysBefore(r.0) + r.1 == DaysBefore(y) + d
    decreases d
  {
    if d < YearDays(y) then (y, d)
    else
      assert DaysBefore(y + 1) == DaysBefore(y) + YearDays(y);
      YearAt(y + 1, d - YearDays(y))
  }

  function MonthAt(y: nat, m: nat, d: nat): (r: (nat, nat))
    requires 1 <= m <= 12 && DaysBeforeMonth(y, m) + d < YearDays(y)
    ensures 1 <= r.0 <= 12 && r.1 < MonthDays(y, r.0)
    ensures DaysBeforeMonth(y, r.0) + r.1 == DaysBeforeMonth(y, m) + d
    decreases 12 - m
  {
    if d < MonthDays(y, m) then (m, d)
    else
      assert m < 12 by { MonthsFillYear(y); }
      MonthAt(y, m + 1, d - MonthDays(y, m))
  }

  lemma TimeOfDay(t: nat)
    requires t < 86400
    ensures t / 3600 < 24 && ((t / 3600) * 60 + t / 60 % 60) * 60 + t % 60 == t
  {
    assert t / 60 / 60 == t / 3600;
  }

  /** The date and time of day that a count of seconds stands for. */
  function CivilOf(s: nat): (c: Civil)
    ensures Valid(c) && Seconds(c) == s
  {
    var (y, d) := YearAt(0, s / 86400);
    var (m, dd) := MonthAt(y, 1, d);
    var t := s % 86400;
    TimeOfDay(t);
    Civil(y, m, dd + 1, t / 3600, t / 60 % 60, t % 60)
  }

  // ---- order ----

  predicate Before(a: Civil, b: Civil) {
    || a.year < b.year
    || (a.year == b.year && a.month < b.month)
    || (a.year == b.year && a.month == b.month && a.day < b.day)
    || (a.year == b.year && a.month == b.month && a.day == b.day && TimeBefore(a, b))
  }

  predicate TimeBefore(a: Civil, b: Civil) {
    || a.hour < b.hour
    || (a.hour == b.hour && a.minute < b.minute)
    || (a.hour == b.hour && a.minute == b.minute && a.second < b.second)
  }

  lemma {:induction false} MonthsAdvance(y: nat, m: nat, n: nat)
    requires 1 <= m < n
    ensures DaysBeforeMonth(y, m) + MonthDays(y, m) <= DaysBeforeMonth(y, n)
    decreases n
  {
    if m + 1 < n {
      MonthsAdvance(y, m, n - 1);
    }
  }

  lemma {:induction false} YearsAdvance(y: nat, z: nat)
    requires y < z
    ensures DaysBefore(y) + YearDays(y) <= DaysBefore(z)
    decreases z
  {
    if y + 1 < z {
      YearsAdvance(y, z - 1);
    }
  }

  lemma DayWithinYear(c: Civil)
    requires Valid(c)
    ensures DayOfYear(c) < YearDays(c.year)
  {
    MonthsFillYear(c.year);
    MonthsAdvance(c.year, c.month, 13);
  }

  lemma EarlierDay(a: Civil, b: Civil)
    requires Valid(a) && Valid(b)
    requires DaysBefore(a.year) + DayOfYear(a) < DaysBefore(b.year) + DayOfYear(b)
    ensures Seconds(a) < Seconds(b)
  {
  }

  lemma BeforeIsEarlier(a: Civil, b: Civil)
    requires Valid(a) && Valid(b) && Before(a, b)
    ensures Seconds(a) < Seconds(b)
  {
    if a.year < b.year {
      DayWithinYear(a);
      YearsAdvance(a.year, b.year);
      EarlierDay(a, b);
    } else if a.month < b.month {
      MonthsAdvance(a.year, a.month, b.month);
      EarlierDay(a, b);
    } else if a.day < b.day {
      EarlierDay(a, b);
    }
  }

  /** Reading the fields in turn orders valid times as their instants do. */
  lemma FieldOrder(a: Civil, b: Civil)
    requires Valid(a) && Valid(b)
    ensures Before(a, b) <==> Seconds(a) < Seconds(b)
    ensures a == b <==> Seconds(a) == Seconds(b)
  {
    if Before(a, b) {
      BeforeIsEarlier(a, b);
    } else if a != b {
      BeforeIsEarlier(b, a);
    }
  }

  // ---- text ----

  function Digit(n: nat): (c: char)
    requires n < 10
  {
    '0' + n as char
  }

  /** Decimal digits, zero-padded to a width and wider when the number needs it. */
  function Decimal(n: nat, width: nat): (s: string)
    ensures |s| > 0
  {
    if n < 10 && width <= 1 then [Digit(n)]
    else Decimal(n / 10, if width == 0 then 0 else width - 1) + [Digit(n % 10)]
  }

  function Field(n: nat, width: nat, mark: char, rest: string): string {
    Decimal(n, width) + [mark] + rest
  }

  /** The layout of time.RFC3339 for a time in UTC: whole seconds, "Z" for the zone. */
  function Format(c: Civil): string {
    Field(c.year, 4, '-', Field(c.month, 2, '-', Field(c.day, 2, 'T',
      Field(c.hour, 2, ':', Field(c.minute, 2, ':', Field(c.second, 2, 'Z', ""))))))
  }

  function Pow10(k: nat): (p: nat)
    ensures p > 0
  {
    if k == 0 then 1 else 10 * Pow10(k - 1)
  }

  lemma {:induction false} DecimalOrder(n: nat, m: nat, k: nat)
    requires k > 0 && n < Pow10(k) && m < Pow10(k)
    ensures |Decimal(n, k)| == |Decimal(m, k)| == k
    ensures Less(Decimal(n, k), Decimal(m, k)) <==> n < m
    ensures Decimal(n, k) == Decimal(m, k) <==> n == m
    decreases k
  {
    if k == 1 {
      assert Pow10(1) == 10 * Pow10(0);
      assert n < 10 && m < 10;
    } else {
      DecimalOrder(n / 10, m / 10, k - 1);
      LessByPrefix(Decimal(n / 10, k - 1), Decimal(m / 10, k - 1), [Digit(n % 10)], [Digit(m % 10)]);
      assert Decimal(n, k)[..k - 1] == Decimal(n / 10, k - 1);
      assert Decimal(m, k)[..k - 1] == Decimal(m / 10, k - 1);
      assert Decimal(n, k)[k - 1] == Digit(n % 10) && Decimal(m, k)[k - 1] == Digit(m % 10);
    }
  }

  lemma FieldsOrder(n: nat, m: nat, k: nat, mark: char, x: string, y: string)
    requires k > 0 && n < Pow10(k) && m < Pow10(k)
    ensures Less(Field(n, k, mark, x), Field(m, k, mark, y)) <==> n < m || (n == m && Less(x, y))
  {
    DecimalOrder(n, m, k);
    var a, b := Decimal(n, k), Decimal(m, k);
    LessByPrefix(a, b, [mark] + x, [mark] + y);
    LessByPrefix([mark], [mark], x, y);
    LessIsTotal([mark], [mark]);
    assert a + [mark] + x == a + ([mark] + x) && b + [mark] + y == b + ([mark] + y);
  }

  lemma Pow10Values()
    ensures Pow10(2) == 100 && Pow10(4) == 10_000
  {
    assert Pow10(2) == 10 * Pow10(1) && Pow10(1) == 10 * Pow10(0);
    assert Pow10(4) == 10 * Pow10(3) && Pow10(3) == 10 * Pow10(2);
  }

  function ClockText(c: Civil): string {
    Field(c.hour, 2, ':', Field(c.minute, 2, ':', Field(c.second, 2, 'Z', "")))
  }

  lemma ClockTextOrder(a: Civil, b: Civil)
    requires Valid(a) && Valid(b)
    ensures Less(ClockText(a), ClockText(b)) <==> TimeBefore(a, b)
  {
    Pow10Values();
    FieldsOrder(a.second, b.second, 2, 'Z', "", "");
    var x, y := Field(a.second, 2, 'Z', ""), Field(b.second, 2, 'Z', "");
    FieldsOrder(a.minute, b.minute, 2, ':', x, y);
    FieldsOrder(a.hour, b.hour, 2, ':', Field(a.minute, 2, ':', x), Field(b.minute, 2, ':', y));
  }

  /** With four-digit years the text is ordered as the fields are. */
  lemma TextOrder(a: Civil, b: Civil)
    requires Valid(a) && Valid(b) && a.year < 10_000 && b.year < 10_000
    ensures Less(Format(a), Format(b)) <==> Before(a, b)
  {
    Pow10Values();
    ClockTextOrder(a, b);
    var x, y := ClockText(a), ClockText(b);
    FieldsOrder(a.day, b.day, 2, 'T', x, y);
    var x', y' := Field(a.day, 2, 'T', x), Field(b.day, 2, 'T', y);
    FieldsOrder(a.month, b.month, 2, '-', x', y');
    FieldsOrder(a.year, b.year, 4, '-', Field(a.month, 2, '-', x'), Field(b.month, 2, '-', y'));
  }

  // ---- instants ----

  const NANOS: nat := 1_000_000_000

  /** An instant in nanoseconds, normalised to UTC and written out: the fraction is dropped. */
  function Stamp(t: nat): string {
    Format(CivilOf(t / NANOS))
  }

  function YearOf(t: nat): nat {
    CivilOf(t / NANOS).year
  }

  /** Stored text orders instants by their whole seconds, and tells apart only those. */
  lemma StampOrder(s: nat, t: nat)
    requires YearOf(s) < 10_000 && YearOf(t) < 10_000
    ensures Less(Stamp(s), Stamp(t)) <==> s / NANOS < t / NANOS
    ensures Stamp(s) == Stamp(t) <==> s / NANOS == t / NANOS
  {
    var a, b := CivilOf(s / NANOS), CivilOf(t / NANOS);
    TextOrder(a, b);
    TextOrder(b, a);
    FieldOrder(a, b);
    FieldOrder(b, a);
    LessIsTotal(Stamp(s), Stamp(t));
  }

  lemma LeadingDigit(n: nat)
    ensures 1_000 <= n < 10_000 ==> Decimal(n, 4)[0] == Digit(n / 1_000)
    ensures 10_000 <= n < 20_000 ==> Decimal(n, 4)[0] == '1'
  {
    if 1_000 <= n < 20_000 {
      assert Decimal(n, 4)[0] == Decimal(n / 10, 3)[0];
      assert Decimal(n / 10, 3)[0] == Decimal(n / 10 / 10, 2)[0];
      assert Decimal(n / 10 / 10, 2)[0] == Decimal(n / 10 / 10 / 10, 1)[0];
      assert n / 10 / 10 / 10 == n / 1_000;
      if n >= 10_000 {
        assert Decimal(n / 1_000, 1)[0] == Decimal(n / 1_000 / 10, 0)[0];
      }
    }
  }

  /** The text is ordered only while years have four digits: these are years apart, the wrong way round. */
  lemma FiveDigitsMisorder(s: nat, t: nat)
    requires 2_000 <= YearOf(t) < 10_000 <= YearOf(s) < 20_000
    ensures t < s && Less(Stamp(s), Stamp(t))
  {
    LeadingDigit(YearOf(s));
    LeadingDigit(YearOf(t));
    FieldOrder(CivilOf(t / NANOS), CivilOf(s / NANOS));
  }

  // ---- the calendar and the layout, against what is known of them ----

  /** A count of multiples grows by one at each of them. */
  lemma CountFours(y: nat)
    requires y > 0
    ensures (y + 3) / 4 == (y + 2) / 4 + if (y - 1) % 4 == 0 then 1 else 0
  {
  }

  lemma CountHundreds(y: nat)
    requires y > 0
    ensures (y + 99) / 100 == (y + 98) / 100 + if (y - 1) % 100 == 0 then 1 else 0
  {
  }

  lemma CountFourHundreds(y: nat)
    requires y > 0
    ensures (y + 399) / 400 == (y + 398) / 400 + if (y - 1) % 400 == 0 then 1 else 0
  {
  }

  lemma FourHundredsAreHundreds(y: nat, q: nat)
    ensures y == 400 * q ==> y % 100 == 0
  {
    if y == 400 * q {
      assert y / 100 == 4 * q;
    }
  }

  lemma HundredsAreFours(y: nat, q: nat)
    ensures y == 100 * q ==> y % 4 == 0
  {
    if y == 100 * q {
      assert y / 4 == 25 * q;
    }
  }

  lemma Multiples(y: nat)
    ensures (y % 400 == 0 ==> y % 100 == 0) && (y % 100 == 0 ==> y % 4 == 0)
  {
    FourHundredsAreHundreds(y, y / 400);
    HundredsAreFours(y, y / 100);
  }

  lemma LeapByRule(y: nat)
    ensures YearDays(y) == 365 + (if y % 4 == 0 then 1 else 0) - (if y % 100 == 0 then 1 else 0)
                           + (if y % 400 == 0 then 1 else 0)
  {
    Multiples(y);
  }

  /** Leap days by the rule of the Gregorian calendar: one in four years, not in a hundred, but in four hundred. */
  lemma {:induction false} DaysByRule(y: nat)
    ensures DaysBefore(y) == 365 * y + (y + 3) / 4 - (y + 99) / 100 + (y + 399) / 400
  {
    if y > 0 {
      DaysByRule(y - 1);
      CountFours(y);
      CountHundreds(y);
      CountFourHundreds(y);
      LeapByRule(y - 1);
    }
  }

  /** Where the months begin. */
  lemma MonthsByTable(y: nat)
    ensures var leap := if IsLeap(y) then 1 else 0;
            && DaysBeforeMonth(y, 1) == 0 && DaysBeforeMonth(y, 2) == 31
            && DaysBeforeMonth(y, 3) == 59 + leap && DaysBeforeMonth(y, 4) == 90 + leap
            && DaysBeforeMonth(y, 5) == 120 + leap && DaysBeforeMonth(y, 6) == 151 + leap
            && DaysBeforeMonth(y, 7) == 181 + leap && DaysBeforeMonth(y, 8) == 212 + leap
            && DaysBeforeMonth(y, 9) == 243 + leap && DaysBeforeMonth(y, 10) == 273 + leap
            && DaysBeforeMonth(y, 11) == 304 + leap && DaysBeforeMonth(y, 12) == 334 + leap
  {
    assert DaysBeforeMonth(y, 3) == DaysBeforeMonth(y, 2) + MonthDays(y, 2) && DaysBeforeMonth(y, 2) == 31;
    assert DaysBeforeMonth(y, 4) == DaysBeforeMonth(y, 3) + 31;
    TwoMonths(y, 3);
    TwoMonths(y, 4);
    TwoMonths(y, 5);
    TwoMonths(y, 6);
    TwoMonths(y, 7);
    TwoMonths(y, 8);
    TwoMonths(y, 9);
    TwoMonths(y, 10);
  }

  /** The number a run of decimal digits stands for. */
  function Number(s: string): nat {
    if s == "" then 0
    else 10 * Number(s[..|s| - 1]) + (if '0' <= s[|s| - 1] <= '9' then s[|s| - 1] as nat - '0' as nat else 0)
  }

  lemma {:induction false} NumberOf(n: nat, k: nat)
    requires k > 0 && n < Pow10(k)
    ensures |Decimal(n, k)| == k && Number(Decimal(n, k)) == n
    decreases k
  {
    if k > 1 {
      NumberOf(n / 10, k - 1);
      assert Decimal(n, k)[..k - 1] == Decimal(n / 10, k - 1);
    } else {
      assert Pow10(1) == 10 * Pow10(0);
      assert Decimal(n, 1)[..0] == "";
    }
  }

  lemma FieldReads(n: nat, k: nat, mark: char, rest: string)
    requires k > 0 && n < Pow10(k)
    ensures var f := Field(n, k, mark, rest);
            |f| == k + 1 + |rest| && Number(f[..k]) == n && f[k] == mark && f[k + 1..] == rest
  {
    NumberOf(n, k);
    assert Field(n, k, mark, rest)[..k] == Decimal(n, k);
  }

  /** A part of a part is a part. */
  lemma Within(t: string, off: nat, m: string, a: nat, b: nat)
    requires off <= |t| && t[off..] == m && a <= b <= |m|
    ensures t[off + a..off + b] == m[a..b] && forall k :: a <= k < |m| ==> t[off + k] == m[k]
  {
    assert t[off..][a..b] == t[off + a..off + b];
    assert forall k :: a <= k < |m| ==> t[off..][k] == t[off + k];
  }

  lemma ClockReads(c: Civil)
    requires Valid(c)
    ensures var t := ClockText(c);
            && |t| == 9 && t[2] == ':' && t[5] == ':' && t[8] == 'Z'
            && Number(t[..2]) == c.hour && Number(t[3..5]) == c.minute && Number(t[6..8]) == c.second
  {
    Pow10Values();
    var y := MinuteText(c);
    MinuteReads(c);
    FieldReads(c.hour, 2, ':', y);
    Within(ClockText(c), 3, y, 0, 2);
    Within(ClockText(c), 3, y, 3, 5);
  }

  function MinuteText(c: Civil): string {
    Field(c.minute, 2, ':', Field(c.second, 2, 'Z', ""))
  }

  lemma MinuteReads(c: Civil)
    requires Valid(c)
    ensures var t := MinuteText(c);
            && |t| == 6 && t[2] == ':' && t[5] == 'Z' && Number(t[..2]) == c.minute && Number(t[3..5]) == c.second
  {
    Pow10Values();
    var z := Field(c.second, 2, 'Z', "");
    FieldReads(c.second, 2, 'Z', "");
    FieldReads(c.minute, 2, ':', z);
    Within(MinuteText(c), 3, z, 0, 2);
  }

  function DateText(c: Civil): string {
    Field(c.month, 2, '-', DayText(c))
  }

  function DayText(c: Civil): string {
    Field(c.day, 2, 'T', ClockText(c))
  }

  lemma DayReads(c: Civil)
    requires Valid(c)
    ensures var t := DayText(c);
            |t| == 12 && t[2] == 'T' && t[3..] == ClockText(c) && Number(t[..2]) == c.day
  {
    Pow10Values();
    ClockReads(c);
    FieldReads(c.day, 2, 'T', ClockText(c));
  }

  lemma DateReads(c: Civil)
    requires Valid(c)
    ensures var t := DateText(c);
            && |t| == 15 && t[2] == '-' && t[5] == 'T' && t[6..] == ClockText(c)
            && Number(t[..2]) == c.month && Number(t[3..5]) == c.day
  {
    Pow10Values();
    DayReads(c);
    FieldReads(c.month, 2, '-', DayText(c));
    Within(DateText(c), 3, DayText(c), 0, 2);
    Tail(DateText(c), 3, DayText(c), 3);
  }

  lemma Tail(t: string, off: nat, m: string, k: nat)
    requires off <= |t| && t[off..] == m && k <= |m|
    ensures t[off + k..] == m[k..]
  {
    assert t[off..][k..] == t[off + k..];
  }

  /** The text is that of section 5.6 of RFC 3339 in UTC, and each field can be read back off its place. */
  lemma LayoutReadsBack(c: Civil)
    requires Valid(c) && c.year < 10_000
    ensures var t := Format(c);
            && |t| == 20 && t[4] == '-' && t[7] == '-' && t[10] == 'T' && t[13] == ':' && t[16] == ':' && t[19] == 'Z'
            && Number(t[..4]) == c.year && Number(t[5..7]) == c.month && Number(t[8..10]) == c.day
            && Number(t[11..13]) == c.hour && Number(t[14..16]) == c.minute && Number(t[17..19]) == c.second
  {
    Pow10Values();
    DateReads(c);
    ClockReads(c);
    FieldReads(c.year, 4, '-', DateText(c));
    PlacesRead(Format(c), DateText(c), ClockText(c));
  }

  lemma PlacesRead(t: string, m: string, x: string)
    requires |t| == 20 && |m| == 15 && |x| == 9 && t[5..] == m && m[6..] == x
    ensures t[7] == m[2] && t[10] == m[5] && t[13] == x[2] && t[16] == x[5] && t[19] == x[8]
    ensures t[5..7] == m[..2] && t[8..10] == m[3..5]
    ensures t[11..13] == x[..2] && t[14..16] == x[3..5] && t[17..19] == x[6..8]
  {
    Within(t, 5, m, 0, 2);
    Within(t, 5, m, 3, 5);
    Tail(t, 5, m, 6);
    Within(t, 11, x, 0, 2);
    Within(t, 11, x, 3, 5);
    Within(t, 11, x, 6, 8);
  }

  /** Text names an instant: it is the layout of the date and time of the instant's second. */
  ghost predicate IsTextOf(text: string, t: nat) {
    exists c :: Valid(c) && Seconds(c) == t / NANOS && text == Format(c)
  }

  lemma StampNames(t: nat)
    ensures IsTextOf(Stamp(t), t)
  {
    assert Valid(CivilOf(t / NANOS)) && Seconds(CivilOf(t / NANOS)) == t / NANOS;
  }
}

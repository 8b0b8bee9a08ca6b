/** internal/adapters/sqlitecompat/store.go: times stored as text, and compared as text by the schedule guard. */
module TextTime {
  import opened Basics
  import opened Tables
  import opened Protocol
  import opened Safety

  /** A time in UTC with a four-digit year, as RFC3339Nano writes it. */
  datatype Stamp = Stamp(year: nat, month: nat, day: nat, hour: nat, minute: nat, second: nat, nanos: nat) {
    predicate Valid() {
      && year <= 9999 && 1 <= month <= 12 && 1 <= day <= DaysIn(year, month)
      && hour < 24 && minute < 60 && second < 60 && nanos < SECOND
    }
  }

  // ------------------------------------------------------------------ The instant

  predicate Leap(year: nat) {
    year % 4 == 0 && (year % 100 != 0 || year % 400 == 0)
  }

  function DaysIn(year: nat, month: nat): nat {
    if month == 2 then (if Leap(year) then 29 else 28)
    else if month in {4, 6, 9, 11} then 30
    else 31
  }

  /** Days from the start of the year to the start of the month; month 13 is the next January. */
  function DaysBeforeMonth(year: nat, month: nat): nat {
    if month <= 1 then 0 else DaysBeforeMonth(year, month - 1) + DaysIn(year, month - 1)
  }

  /** Days from the start of year 1, in the proleptic Gregorian calendar, to the start of `year`. */
  function DaysBeforeYear(year: nat): int {
    if year == 0 then -366 else DaysBeforeYear(year - 1) + DaysBeforeMonth(year - 1, 13)
  }

  function WholeSeconds(s: Stamp): int
    requires s.Valid()
  {
    (DaysBeforeYear(s.year) + DaysBeforeMonth(s.year, s.month) + s.day - 1) * 86400
    + s.hour * 3600 + s.minute * 60 + s.second
  }

  function Instant(s: Stamp): Time
    requires s.Valid()
  {
    WholeSeconds(s) * SECOND + s.nanos
  }

  /** The days of n years, with a leap day every fourth year, but every hundredth only if it is a fourth of those. */
  function Gregorian(n: int): int {
    365 * n + n / 4 - n / 100 + n / 400
  }

  lemma GregorianYear(year: nat)
    ensures Gregorian(year) == Gregorian(year - 1) + (if Leap(year) then 366 else 365)
  {
    LeapDays(year);
  }

  /** The days counted month by month are those of the Gregorian calendar. */
  lemma {:induction false} DaysClosedForm(year: nat)
    ensures DaysBeforeYear(year) == Gregorian(year - 1)
  {
    if year > 0 {
      hide DaysBeforeMonth, Leap, Gregorian;
      DaysClosedForm(year - 1);
      YearLength(year - 1);
      GregorianYear(year - 1);
    } else {
      assert DaysBeforeYear(0) == Gregorian(-1);
    }
  }

  lemma YearLength(year: nat)
    ensures DaysBeforeMonth(year, 13) == if Leap(year) then 366 else 365
  {
    MonthLengths(year);
  }

  /** The months of a year, counted out. */
  lemma MonthLengths(year: nat)
    ensures var leap := if Leap(year) then 1 else 0;
            && DaysBeforeMonth(year, 1) == 0 && DaysBeforeMonth(year, 2) == 31
            && DaysBeforeMonth(year, 3) == 59 + leap && DaysBeforeMonth(year, 4) == 90 + leap
            && DaysBeforeMonth(year, 5) == 120 + leap && DaysBeforeMonth(year, 6) == 151 + leap
            && DaysBeforeMonth(year, 7) == 181 + leap && DaysBeforeMonth(year, 8) == 212 + leap
            && DaysBeforeMonth(year, 9) == 243 + leap && DaysBeforeMonth(year, 10) == 273 + leap
            && DaysBeforeMonth(year, 11) == 304 + leap && DaysBeforeMonth(year, 12) == 334 + leap
            && DaysBeforeMonth(year, 13) == 365 + leap
  {
    hide Leap;
    assert DaysBeforeMonth(year, 2) == 31;
    assert DaysBeforeMonth(year, 3) == 31 + DaysIn(year, 2);
    assert DaysBeforeMonth(year, 4) == DaysBeforeMonth(year, 3) + 31;
    assert DaysBeforeMonth(year, 5) == DaysBeforeMonth(year, 4) + 30;
    assert DaysBeforeMonth(year, 6) == DaysBeforeMonth(year, 5) + 31;
    assert DaysBeforeMonth(year, 7) == DaysBeforeMonth(year, 6) + 30;
    assert DaysBeforeMonth(year, 8) == DaysBeforeMonth(year, 7) + 31;
    assert DaysBeforeMonth(year, 9) == DaysBeforeMonth(year, 8) + 31;
    assert DaysBeforeMonth(year, 10) == DaysBeforeMonth(year, 9) + 30;
    assert DaysBeforeMonth(year, 11) == DaysBeforeMonth(year, 10) + 31;
    assert DaysBeforeMonth(year, 12) == DaysBeforeMonth(year, 11) + 30;
  }

  lemma Fourths(year: int)
    ensures year / 4 == (year - 1) / 4 + (if year % 4 == 0 then 1 else 0)
    ensures year / 100 == (year - 1) / 100 + (if year % 100 == 0 then 1 else 0)
    ensures year / 400 == (year - 1) / 400 + (if year % 400 == 0 then 1 else 0)
    ensures year % 400 == 0 ==> year % 100 == 0
    ensures year % 100 == 0 ==> year % 4 == 0
  {
  }

  lemma LeapDays(year: nat)
    ensures year / 4 - year / 100 + year / 400
            == (year - 1) / 4 - (year - 1) / 100 + (year - 1) / 400 + (if Leap(year) then 1 else 0)
  {
    Fourths(year);
  }

  lemma {:induction false} YearsGrow(y: nat, z: nat)
    requires y < z
    ensures DaysBeforeYear(y) + DaysBeforeMonth(y, 13) <= DaysBeforeYear(z)
  {
    if y < z - 1 {
      YearsGrow(y, z - 1);
    }
  }

  lemma {:induction false} MonthsGrow(year: nat, m: nat, n: nat)
    requires 1 <= m < n
    ensures DaysBeforeMonth(year, m) + DaysIn(year, m) <= DaysBeforeMonth(year, n)
  {
    if m < n - 1 {
      MonthsGrow(year, m, n - 1);
    }
  }

  // --------------------------------------------------------------------- The text

  function Digit(d: nat): char
    requires d < 10
  {
    '0' + d as char
  }

  predicate AllDigits(s: string) {
    forall i :: 0 <= i < |s| ==> '0' <= s[i] <= '9'
  }

  function Pow10(n: nat): nat {
    if n == 0 then 1 else 10 * Pow10(n - 1)
  }

  function Digits(n: nat, width: nat): (text: string)
    ensures |text| == width
    ensures AllDigits(text)
  {
    if width == 0 then "" else Digits(n / 10, width - 1) + [Digit(n % 10)]
  }

  /** A number in a fixed width, and what is written after it. */
  datatype Field = Field(value: nat, width: nat, separator: string)

  function Written(fields: seq<Field>): string {
    if fields == [] then ""
    else Digits(fields[0].value, fields[0].width) + fields[0].separator + Written(fields[1..])
  }

  function FieldsOf(s: Stamp): seq<Field> {
    [Field(s.year, 4, "-"), Field(s.month, 2, "-"), Field(s.day, 2, "T"),
     Field(s.hour, 2, ":"), Field(s.minute, 2, ":"), Field(s.second, 2, "")]
  }

  predicate AllZeros(s: string) {
    forall i :: 0 <= i < |s| ==> s[i] == '0'
  }

  /** The text without its trailing zeros. */
  function Trim(s: string): (t: string)
    ensures t <= s
  {
    if AllZeros(s) then "" else [s[0]] + Trim(s[1..])
  }

  function Fraction(nanos: nat): string {
    Trim(Digits(nanos, 9))
  }

  function Ending(fraction: string): string {
    if fraction == "" then "Z" else "." + fraction + "Z"
  }

  /** formatTime: trailing zeros of the fraction are not written, and an empty fraction has no point. */
  function FormatTime(s: Stamp): string {
    Written(FieldsOf(s)) + Ending(Fraction(s.nanos))
  }

  // ----------------------------------------------------------------- Text order

  /** SQLite's binary comparison of two texts. */
  predicate TextLess(s: string, t: string) {
    t != "" && (s == "" || s[0] < t[0] || (s[0] == t[0] && TextLess(s[1..], t[1..])))
  }

  lemma {:induction false} TextLessAppended(s: string, t: string, x: string, y: string)
    requires |s| == |t|
    ensures TextLess(s + x, t + y) <==> TextLess(s, t) || (s == t && TextLess(x, y))
  {
    if s == "" {
      assert s + x == x && t + y == y;
    } else {
      assert (s + x)[1..] == s[1..] + x && (t + y)[1..] == t[1..] + y;
      TextLessAppended(s[1..], t[1..], x, y);
      assert s == [s[0]] + s[1..] && t == [t[0]] + t[1..];
    }
  }

  lemma {:induction false} TextLessIrreflexive(s: string)
    ensures !TextLess(s, s)
  {
    if s != "" {
      TextLessIrreflexive(s[1..]);
    }
  }

  /** Numbers written in the same width compare as text the way they compare as numbers. */
  lemma {:induction false} DigitsOrder(m: nat, n: nat, width: nat)
    requires m < Pow10(width) && n < Pow10(width)
    ensures TextLess(Digits(m, width), Digits(n, width)) <==> m < n
    ensures Digits(m, width) == Digits(n, width) <==> m == n
  {
    if width > 0 {
      var s, t := Digits(m / 10, width - 1), Digits(n / 10, width - 1);
      DigitsOrder(m / 10, n / 10, width - 1);
      var x, y := [Digit(m % 10)], [Digit(n % 10)];
      TextLessAppended(s, t, x, y);
      assert TextLess(x, y) <==> m % 10 < n % 10;
      assert s + x == t + y <==> s == t && x == y by {
        assert s == (s + x)[..width - 1] && t == (t + y)[..width - 1];
        assert (s + x)[width - 1] == x[0] && (t + y)[width - 1] == y[0];
      }
    }
  }

  /** Two field lists of one shape, with values that fit. */
  ghost predicate SameShape(f: seq<Field>, g: seq<Field>) {
    && |f| == |g|
    && forall i :: 0 <= i < |f| ==>
         && f[i].width == g[i].width && f[i].separator == g[i].separator
         && f[i].value < Pow10(f[i].width) && g[i].value < Pow10(g[i].width)
  }

  ghost predicate FieldsLess(f: seq<Field>, g: seq<Field>)
    requires |f| == |g|
  {
    f != [] && (f[0].value < g[0].value || (f[0].value == g[0].value && FieldsLess(f[1..], g[1..])))
  }

  lemma FieldOrder(m: nat, n: nat, width: nat, separator: string, x: string, y: string)
    requires m < Pow10(width) && n < Pow10(width)
    ensures TextLess(Digits(m, width) + (separator + x), Digits(n, width) + (separator + y))
            <==> m < n || (m == n && TextLess(x, y))
  {
    hide Digits, TextLess;
    TextLessAppended(Digits(m, width), Digits(n, width), separator + x, separator + y);
    DigitsOrder(m, n, width);
    TextLessIrreflexive(separator);
    TextLessAppended(separator, separator, x, y);
  }

  lemma WrittenFront(f: seq<Field>, x: string)
    requires f != []
    ensures Written(f) + x == Digits(f[0].value, f[0].width) + (f[0].separator + (Written(f[1..]) + x))
  {
    hide Digits;
    Associative(Digits(f[0].value, f[0].width), f[0].separator, Written(f[1..]), x);
  }

  lemma Associative(a: string, b: string, c: string, d: string)
    ensures a + b + c + d == a + (b + (c + d))
  {
  }

  lemma NothingWritten()
    ensures Written([]) == ""
  {
  }

  /** A formatted time, spelled out. */
  lemma SpelledOut(s: Stamp)
    ensures FormatTime(s)
            == Digits(s.year, 4) + ("-" + (Digits(s.month, 2) + ("-" + (Digits(s.day, 2) + ("T" + (
               Digits(s.hour, 2) + (":" + (Digits(s.minute, 2) + (":" + (Digits(s.second, 2) + ("" +
               (if Fraction(s.nanos) == "" then "Z" else "." + Fraction(s.nanos) + "Z"))))))))))))
  {
    hide Digits, Fraction, Written;
    var f, ending := FieldsOf(s), Ending(Fraction(s.nanos));
    assert f[1..][1..] == f[2..] && f[2..][1..] == f[3..] && f[3..][1..] == f[4..];
    assert f[4..][1..] == f[5..] && f[5..][1..] == [];
    WrittenFront(f, ending);
    WrittenFront(f[1..], ending);
    WrittenFront(f[2..], ending);
    WrittenFront(f[3..], ending);
    WrittenFront(f[4..], ending);
    WrittenFront(f[5..], ending);
    NothingWritten();
    assert "" + ending == ending;
  }

  lemma {:induction false} WrittenOrder(f: seq<Field>, g: seq<Field>, x: string, y: string)
    requires SameShape(f, g)
    ensures TextLess(Written(f) + x, Written(g) + y) <==> FieldsLess(f, g) || (f == g && TextLess(x, y))
  {
    hide TextLess, Written;
    if f == [] {
      NothingWritten();
      assert "" + x == x && "" + y == y;
    } else {
      WrittenFront(f, x);
      WrittenFront(g, y);
      FieldOrder(f[0].value, g[0].value, f[0].width, f[0].separator, Written(f[1..]) + x, Written(g[1..]) + y);
      WrittenOrder(f[1..], g[1..], x, y);
      assert f == [f[0]] + f[1..] && g == [g[0]] + g[1..];
    }
  }

  // -------------------------------------------------------- Fields and seconds

  lemma StampShape(a: Stamp, b: Stamp)
    requires a.Valid() && b.Valid()
    ensures SameShape(FieldsOf(a), FieldsOf(b))
  {
    assert Pow10(2) == 100 && Pow10(4) == 10000;
  }

  predicate CivilLess(a: Stamp, b: Stamp) {
    || a.year < b.year
    || (a.year == b.year && (a.month < b.month
    || (a.month == b.month && (a.day < b.day
    || (a.day == b.day && (a.hour < b.hour
    || (a.hour == b.hour && (a.minute < b.minute
    || (a.minute == b.minute && a.second < b.second)))))))))
  }

  lemma FieldsLessFrom(f: seq<Field>, g: seq<Field>, k: nat)
    requires |f| == |g| && k < |f|
    ensures FieldsLess(f[k..], g[k..])
            <==> f[k].value < g[k].value || (f[k].value == g[k].value && FieldsLess(f[k + 1..], g[k + 1..]))
  {
    assert f[k..][1..] == f[k + 1..] && g[k..][1..] == g[k + 1..];
  }

  lemma FieldsLessIsCivilLess(a: Stamp, b: Stamp)
    ensures FieldsLess(FieldsOf(a), FieldsOf(b)) <==> CivilLess(a, b)
  {
    hide FieldsLess;
    var f, g := FieldsOf(a), FieldsOf(b);
    assert |f| == |g| == 6 && f[0..] == f && g[0..] == g;
    assert f[0].value == a.year && f[1].value == a.month && f[2].value == a.day
        && f[3].value == a.hour && f[4].value == a.minute && f[5].value == a.second;
    assert g[0].value == b.year && g[1].value == b.month && g[2].value == b.day
        && g[3].value == b.hour && g[4].value == b.minute && g[5].value == b.second;
    hide FieldsOf;
    FieldsLessFrom(f, g, 0);
    FieldsLessFrom(f, g, 1);
    FieldsLessFrom(f, g, 2);
    FieldsLessFrom(f, g, 3);
    FieldsLessFrom(f, g, 4);
    FieldsLessFrom(f, g, 5);
    NothingLess(f[6..], g[6..]);
  }

  lemma NothingLess(f: seq<Field>, g: seq<Field>)
    requires f == g == []
    ensures !FieldsLess(f, g)
  {
  }

  lemma LaterDay(a: Stamp, b: Stamp)
    requires a.Valid() && b.Valid()
    requires a.year < b.year || (a.year == b.year && (a.month < b.month || (a.month == b.month && a.day < b.day)))
    ensures DaysBeforeYear(a.year) + DaysBeforeMonth(a.year, a.month) + a.day
            < DaysBeforeYear(b.year) + DaysBeforeMonth(b.year, b.month) + b.day
  {
    if a.year < b.year {
      YearsGrow(a.year, b.year);
      MonthsGrow(a.year, a.month, 13);
    } else if a.month < b.month {
      MonthsGrow(a.year, a.month, b.month);
    }
  }

  lemma CivilLessIsEarlier(a: Stamp, b: Stamp)
    requires a.Valid() && b.Valid() && CivilLess(a, b)
    ensures WholeSeconds(a) < WholeSeconds(b)
  {
    if !(a.year == b.year && a.month == b.month && a.day == b.day) {
      LaterDay(a, b);
    }
  }

  /** Different whole seconds are ordered by their fields as by their count. */
  lemma SecondsOrder(a: Stamp, b: Stamp)
    requires a.Valid() && b.Valid()
    ensures CivilLess(a, b) <==> WholeSeconds(a) < WholeSeconds(b)
    ensures FieldsOf(a) == FieldsOf(b) <==> WholeSeconds(a) == WholeSeconds(b)
  {
    if CivilLess(a, b) {
      CivilLessIsEarlier(a, b);
    } else if CivilLess(b, a) {
      CivilLessIsEarlier(b, a);
    }
    var f, g := FieldsOf(a), FieldsOf(b);
    assert f == g ==> f[0] == g[0] && f[1] == g[1] && f[2] == g[2] && f[3] == g[3] && f[4] == g[4] && f[5] == g[5];
  }

  // ------------------------------------------------------------------ Fractions

  lemma {:induction false} ZerosAreLeast(s: string, t: string)
    requires |s| == |t| && AllZeros(s) && !AllZeros(t) && AllDigits(t)
    ensures TextLess(s, t) && !TextLess(t, s)
  {
    if t[0] == '0' {
      assert t == [t[0]] + t[1..];
      ZerosAreLeast(s[1..], t[1..]);
    }
  }

  lemma {:induction false} EqualZeros(s: string, t: string)
    requires |s| == |t| && AllZeros(s) && AllZeros(t)
    ensures s == t
  {
    if s != "" {
      EqualZeros(s[1..], t[1..]);
      assert s == [s[0]] + s[1..] && t == [t[0]] + t[1..];
    }
  }

  /** Trimming keeps the order of texts of equal length, and which of them are equal. */
  lemma {:induction false} TrimOrder(s: string, t: string)
    requires |s| == |t| && AllDigits(s) && AllDigits(t)
    ensures TextLess(Trim(s), Trim(t)) <==> TextLess(s, t)
    ensures Trim(s) == Trim(t) <==> s == t
  {
    if AllZeros(s) && AllZeros(t) {
      EqualZeros(s, t);
      TextLessIrreflexive(s);
    } else if AllZeros(s) {
      ZerosAreLeast(s, t);
    } else if AllZeros(t) {
      ZerosAreLeast(t, s);
    } else {
      TrimOrder(s[1..], t[1..]);
      assert s == [s[0]] + s[1..] && t == [t[0]] + t[1..];
      assert Trim(s)[1..] == Trim(s[1..]) && Trim(t)[1..] == Trim(t[1..]);
    }
  }

  lemma SameFront(c: char, s: string, t: string)
    ensures TextLess([c] + s, [c] + t) <==> TextLess(s, t)
    ensures [c] + s < [c] + t <==> s < t
  {
    assert ([c] + s)[1..] == s && ([c] + t)[1..] == t;
    assert [c] + s <= [c] + t <==> s <= t by {
      assert |s| <= |t| ==> ([c] + t)[..|s| + 1] == [c] + t[..|s|];
      assert [c] + s == [c] + t[..Min(|s|, |t|)] ==> s == ([c] + t[..Min(|s|, |t|)])[1..];
    }
  }

  lemma DifferentFront(s: string, t: string)
    requires s != "" && t != "" && s[0] != t[0]
    ensures TextLess(s, t) <==> s[0] < t[0]
  {
  }

  /** The terminator sorts after every digit, so the longer of two texts that agree sorts first. */
  ghost predicate LongerFirst(f: string, g: string) {
    if f < g then false else if g < f then true else TextLess(f, g)
  }

  lemma LongerFirstFront(c: char, f: string, g: string)
    ensures LongerFirst([c] + f, [c] + g) <==> LongerFirst(f, g)
  {
    SameFront(c, f, g);
    SameFront(c, g, f);
  }

  lemma {:induction false} TerminatedOrder(f: string, g: string)
    requires AllDigits(f) && AllDigits(g)
    ensures TextLess(f + "Z", g + "Z") <==> LongerFirst(f, g)
  {
    if f == "" && g == "" {
      TextLessIrreflexive("Z");
    } else if f == "" || g == "" || f[0] != g[0] {
      DifferentFront(f + "Z", g + "Z");
    } else {
      hide TextLess, LongerFirst;
      TerminatedOrder(f[1..], g[1..]);
      assert f == [f[0]] + f[1..] && g == [f[0]] + g[1..];
      assert f + "Z" == [f[0]] + (f[1..] + "Z") && g + "Z" == [f[0]] + (g[1..] + "Z");
      SameFront(f[0], f[1..] + "Z", g[1..] + "Z");
      LongerFirstFront(f[0], f[1..], g[1..]);
    }
  }

  lemma EndingOrder(f: string, g: string)
    requires AllDigits(f) && AllDigits(g)
    ensures TextLess(Ending(f), Ending(g)) <==> LongerFirst(f, g)
  {
    if f == "" && g == "" {
      TextLessIrreflexive("Z");
    } else if f == "" || g == "" {
      DifferentFront(Ending(f), Ending(g));
    } else {
      hide TextLess, LongerFirst;
      TerminatedOrder(f, g);
      assert Ending(f) == ['.'] + (f + "Z") && Ending(g) == ['.'] + (g + "Z");
      SameFront('.', f + "Z", g + "Z");
    }
  }

  lemma FractionOrder(m: nat, n: nat)
    requires m < SECOND && n < SECOND
    ensures TextLess(Fraction(m), Fraction(n)) <==> m < n
    ensures Fraction(m) == Fraction(n) <==> m == n
  {
    assert Pow10(9) == SECOND by {
      assert Pow10(3) == 1000 && Pow10(6) == 1000 * Pow10(3);
    }
    DigitsOrder(m, n, 9);
    TrimOrder(Digits(m, 9), Digits(n, 9));
  }

  // --------------------------------------------------------------- Main results

  /** One fraction, as written, continues the other. */
  predicate Continues(a: Stamp, b: Stamp) {
    Fraction(a.nanos) < Fraction(b.nanos) || Fraction(b.nanos) < Fraction(a.nanos)
  }

  lemma InstantOrder(a: Stamp, b: Stamp)
    requires a.Valid() && b.Valid()
    ensures WholeSeconds(a) < WholeSeconds(b) ==> Instant(a) < Instant(b)
    ensures WholeSeconds(a) == WholeSeconds(b) ==> (Instant(a) < Instant(b) <==> a.nanos < b.nanos)
  {
    hide WholeSeconds, DaysIn;
  }

  /** Comparing two formatted times as text is comparing the times, exactly unless both lie within one second
      and one of the written fractions continues the other. */
  lemma TextOrderIsTimeOrder(a: Stamp, b: Stamp)
    requires a.Valid() && b.Valid()
    ensures (TextLess(FormatTime(a), FormatTime(b)) <==> Instant(a) < Instant(b))
            <==> !(WholeSeconds(a) == WholeSeconds(b) && Continues(a, b))
  {
    hide TextLess, Written, FieldsLess, WholeSeconds, Fraction, CivilLess;
    var f, g := Fraction(a.nanos), Fraction(b.nanos);
    StampShape(a, b);
    WrittenOrder(FieldsOf(a), FieldsOf(b), Ending(f), Ending(g));
    FieldsLessIsCivilLess(a, b);
    SecondsOrder(a, b);
    SecondsOrder(b, a);
    FractionDigits(a.nanos);
    FractionDigits(b.nanos);
    EndingOrder(f, g);
    FractionOrder(a.nanos, b.nanos);
    FractionOrder(b.nanos, a.nanos);
    InstantOrder(a, b);
    InstantOrder(b, a);
    PrefixIsLess(f, g);
    PrefixIsLess(g, f);
  }

  lemma FractionDigits(nanos: nat)
    ensures AllDigits(Fraction(nanos))
  {
  }

  lemma {:induction false} PrefixIsLess(f: string, g: string)
    ensures f < g ==> TextLess(f, g)
  {
    if f != "" && f < g {
      assert f[1..] < g[1..];
      PrefixIsLess(f[1..], g[1..]);
    }
  }

  /** Whole seconds apart, the text order is the time order. */
  lemma SecondsApart(a: Stamp, b: Stamp)
    requires a.Valid() && b.Valid() && (Instant(a) + SECOND <= Instant(b) || Instant(b) + SECOND <= Instant(a))
    ensures TextLess(FormatTime(a), FormatTime(b)) <==> Instant(a) < Instant(b)
  {
    hide FormatTime, TextLess, WholeSeconds;
    TextOrderIsTimeOrder(a, b);
  }

  /** The schedule guard on text is the schedule guard on times, for any two slots of a monitor whose interval
      is at least one second. */
  lemma TextGuardIsTimeGuard(monitor: Monitor, stored: Stamp, next: Stamp)
    requires stored.Valid() && next.Valid() && monitor.interval >= SECOND
    ensures OnGrid(monitor, Instant(stored)) && OnGrid(monitor, Instant(next)) ==>
              (TextLess(FormatTime(stored), FormatTime(next)) <==> Instant(stored) < Instant(next))
  {
    hide FormatTime, TextLess, Instant;
    if !OnGrid(monitor, Instant(stored)) || !OnGrid(monitor, Instant(next)) {
      return;
    }
    var j: nat :| Instant(stored) == Slot(monitor.createdAt, monitor.interval, j);
    var k: nat :| Instant(next) == Slot(monitor.createdAt, monitor.interval, k);
    if j == k {
      assert Instant(stored) == Instant(next);
      SameInstantSameText(stored, next);
    } else {
      SlotsApart(monitor.createdAt, monitor.interval, j, k);
      SecondsApart(stored, next);
    }
  }

  lemma SlotsApart(createdAt: Time, interval: Duration, j: nat, k: nat)
    requires j != k && interval >= SECOND
    ensures Slot(createdAt, interval, j) + SECOND <= Slot(createdAt, interval, k)
            || Slot(createdAt, interval, k) + SECOND <= Slot(createdAt, interval, j)
  {
    hide Slot;
    if j < k {
      SlotsAdd(createdAt, interval, j, k - j);
      AtLeastOnce(k - j, interval);
    } else {
      SlotsAdd(createdAt, interval, k, j - k);
      AtLeastOnce(j - k, interval);
    }
  }

  lemma AtLeastOnce(n: nat, interval: Duration)
    requires n >= 1 && interval >= 0
    ensures n * interval >= interval
  {
  }

  lemma SameInstantSameText(a: Stamp, b: Stamp)
    requires a.Valid() && b.Valid() && Instant(a) == Instant(b)
    ensures !TextLess(FormatTime(a), FormatTime(b))
  {
    hide WholeSeconds, TextLess, Written, Fraction;
    SecondsOrder(a, b);
    InstantOrder(a, b);
    InstantOrder(b, a);
    TextLessIrreflexive(FormatTime(a));
    assert FieldsOf(a) == FieldsOf(b);
  }

  /** With a shorter interval the guard can refuse an advance that time calls for: here from any whole second to
      half a second later. */
  lemma SubSecondAdvanceRefused(stored: Stamp, next: Stamp)
    requires stored.Valid() && stored.nanos == 0 && next == stored.(nanos := 500 * MILLISECOND)
    ensures next.Valid() && Instant(next) == Instant(stored) + 500 * MILLISECOND
    ensures !TextLess(FormatTime(stored), FormatTime(next))
  {
    hide TextLess, FormatTime;
    FractionOrder(0, next.nanos);
    FractionOfZero();
    TextOrderIsTimeOrder(stored, next);
    assert Continues(stored, next);
  }

  lemma FractionOfZero()
    ensures Fraction(0) == ""
  {
    ZeroDigits(9);
  }

  lemma {:induction false} ZeroDigits(width: nat)
    ensures AllZeros(Digits(0, width))
  {
    if width > 0 {
      ZeroDigits(width - 1);
    }
  }

  // ------------------------------------------------------------------ Round trip

  function ValueOf(digits: string): (n: Option<nat>) {
    if digits == "" then Some(0)
    else if !('0' <= Last(digits) <= '9') || ValueOf(Front(digits)) == None then None
    else Some(10 * ValueOf(Front(digits)).value + (Last(digits) - '0') as nat)
  }

  /** Reads fields of the given shape from the front of the text. */
  function ReadFields(shape: seq<Field>, text: string): Option<(seq<nat>, string)> {
    if shape == [] then Some(([], text))
    else
      var end := shape[0].width + |shape[0].separator|;
      if |text| < end || ValueOf(text[..shape[0].width]) == None || text[shape[0].width..end] != shape[0].separator then None
      else
        match ReadFields(shape[1..], text[end..])
        case None => None
        case Some((values, rest)) => Some(([ValueOf(text[..shape[0].width]).value] + values, rest))
  }

  function ReadEnding(text: string): Option<nat> {
    if text == "Z" then Some(0)
    else if 3 <= |text| <= 11 && text[0] == '.' && Last(text) == 'Z' then
      match ValueOf(text[1..|text| - 1])
      case None => None
      case Some(n) => Some(n * Pow10(11 - |text|))
    else None
  }

  const LAYOUT: seq<Field> := FieldsOf(Stamp(0, 0, 0, 0, 0, 0, 0))

  /** parseTime, on texts in UTC with at most nine digits of fraction. */
  function ParseTime(text: string): Option<Stamp> {
    match ReadFields(LAYOUT, text)
    case None => None
    case Some((v, rest)) =>
      match ReadEnding(rest)
      case None => None
      case Some(nanos) =>
        if |v| != 6 then None
        else
          var s := Stamp(v[0], v[1], v[2], v[3], v[4], v[5], nanos);
          if s.Valid() then Some(s) else None
  }

  lemma {:induction false} DigitsValue(n: nat, width: nat)
    requires n < Pow10(width)
    ensures ValueOf(Digits(n, width)) == Some(n)
  {
    if width > 0 {
      DigitsValue(n / 10, width - 1);
      assert Front(Digits(n, width)) == Digits(n / 10, width - 1);
    }
  }

  function Values(fields: seq<Field>): (values: seq<nat>)
    ensures |values| == |fields|
    ensures forall i :: 0 <= i < |fields| ==> values[i] == fields[i].value
  {
    if fields == [] then [] else [fields[0].value] + Values(fields[1..])
  }

  lemma Parts(a: string, b: string, c: string)
    ensures var text := a + (b + c);
            text[..|a|] == a && text[|a|..|a| + |b|] == b && text[|a| + |b|..] == c
  {
  }

  lemma {:induction false} WrittenIsRead(shape: seq<Field>, fields: seq<Field>, rest: string)
    requires |shape| == |fields|
    requires forall i :: 0 <= i < |fields| ==>
               && shape[i].width == fields[i].width && shape[i].separator == fields[i].separator
               && fields[i].value < Pow10(fields[i].width)
    ensures ReadFields(shape, Written(fields) + rest) == Some((Values(fields), rest))
  {
    hide Written, Digits, ValueOf;
    if fields == [] {
      NothingWritten();
      assert "" + rest == rest;
    } else {
      var digits, separator := Digits(fields[0].value, fields[0].width), fields[0].separator;
      WrittenFront(fields, rest);
      Parts(digits, separator, Written(fields[1..]) + rest);
      DigitsValue(fields[0].value, fields[0].width);
      WrittenIsRead(shape[1..], fields[1..], rest);
    }
  }

  /** Trailing zeros are worth a power of ten. */
  lemma {:induction false} TrimmedValue(s: string, t: string)
    requires t <= s && AllZeros(s[|t|..]) && ValueOf(s).Some?
    ensures ValueOf(t).Some? && ValueOf(s).value == ValueOf(t).value * Pow10(|s| - |t|)
  {
    if |t| < |s| {
      assert Front(s)[|t|..] == s[|t|..|s| - 1];
      assert Last(s) in s[|t|..];
      TrimmedValue(Front(s), t);
    } else {
      assert s == t;
    }
  }

  lemma {:induction false} TrimLeavesZeros(s: string)
    ensures AllZeros(s[|Trim(s)|..])
    ensures Trim(s) == "" <==> AllZeros(s)
  {
    if !AllZeros(s) {
      TrimLeavesZeros(s[1..]);
      assert s[|Trim(s)|..] == s[1..][|Trim(s[1..])|..];
    }
  }

  lemma EndingIsRead(nanos: nat)
    requires nanos < SECOND
    ensures ReadEnding(Ending(Fraction(nanos))) == Some(nanos)
  {
    assert Pow10(9) == SECOND by {
      assert Pow10(3) == 1000 && Pow10(6) == 1000 * Pow10(3);
    }
    var digits := Digits(nanos, 9);
    DigitsValue(nanos, 9);
    TrimLeavesZeros(digits);
    TrimmedValue(digits, Trim(digits));
    var text := Ending(Fraction(nanos));
    if Trim(digits) != "" {
      assert text[1..|text| - 1] == Trim(digits);
    }
  }

  /** What formatTime writes, parseTime reads back. */
  lemma FormatThenParse(s: Stamp)
    requires s.Valid()
    ensures ParseTime(FormatTime(s)) == Some(s)
  {
    hide ReadFields, ReadEnding, Written;
    StampShape(s, s);
    WrittenIsRead(LAYOUT, FieldsOf(s), Ending(Fraction(s.nanos)));
    EndingIsRead(s.nanos);
  }
}

/** Civil dates: the dashboard's buckets and the due dates of recurring rules. */
module Calendar {
  import opened Common
  import opened Numbers

  datatype Date = Date(year: int, month: int, day: int)

  predicate IsLeap(year: int) { year % 4 == 0 && (year % 100 != 0 || year % 400 == 0) }

  function DaysInMonth(year: int, month: int): (days: int)
    ensures 28 <= days <= 31
  {
    if month == 2 then (if IsLeap(year) then 29 else 28)
    else if month == 4 || month == 6 || month == 9 || month == 11 then 30 else 31
  }

  predicate ValidDate(d: Date) { d.year >= 1 && 1 <= d.month <= 12 && 1 <= d.day <= DaysInMonth(d.year, d.month) }

  /** Dates compare by year, then month, then day. */
  predicate Before(a: Date, b: Date) {
    a.year < b.year || (a.year == b.year && (a.month < b.month || (a.month == b.month && a.day < b.day)))
  }

  function NextMonth(d: Date): Date {
    if d.month == 12 then Date(d.year + 1, 1, 1) else Date(d.year, d.month + 1, 1)
  }

  function NextDay(d: Date): Date {
    if d.day < DaysInMonth(d.year, d.month) then d.(day := d.day + 1) else NextMonth(d)
  }

  /** `date + timedelta(days=n)` */
  function Plus(d: Date, n: nat): Date { if n == 0 then d else NextDay(Plus(d, n - 1)) }

  // ---- Day numbers ----

  function DaysBeforeYear(year: int): int { 365 * (year - 1) + (year - 1) / 4 - (year - 1) / 100 + (year - 1) / 400 }

  function DaysBeforeMonth(year: int, month: int): int {
    if month <= 1 then 0 else DaysBeforeMonth(year, month - 1) + DaysInMonth(year, month - 1)
  }

  /** The proleptic Gregorian day number, 1 for 1 January of year 1. */
  function Ordinal(d: Date): int { DaysBeforeYear(d.year) + DaysBeforeMonth(d.year, d.month) + d.day }

  lemma YearLength(year: int)
    requires year >= 1
    ensures DaysBeforeYear(year + 1) == DaysBeforeYear(year) + if IsLeap(year) then 366 else 365
  {
    var y := year;
    assert y / 4 == (y - 1) / 4 + if y % 4 == 0 then 1 else 0;
    assert y / 100 == (y - 1) / 100 + if y % 100 == 0 then 1 else 0;
    assert y / 400 == (y - 1) / 400 + if y % 400 == 0 then 1 else 0;
  }

  lemma MonthsOfYear(year: int)
    ensures DaysBeforeMonth(year, 12) + DaysInMonth(year, 12) == if IsLeap(year) then 366 else 365
  {
    var february := DaysInMonth(year, 2);
    assert DaysBeforeMonth(year, 2) == DaysBeforeMonth(year, 1) + 31;
    assert DaysBeforeMonth(year, 3) == 31 + february;
    assert DaysBeforeMonth(year, 4) == 62 + february;
    assert DaysBeforeMonth(year, 5) == 92 + february;
    assert DaysBeforeMonth(year, 6) == 123 + february;
    assert DaysBeforeMonth(year, 7) == 153 + february;
    assert DaysBeforeMonth(year, 8) == 184 + february;
    assert DaysBeforeMonth(year, 9) == 215 + february;
    assert DaysBeforeMonth(year, 10) == 245 + february;
    assert DaysBeforeMonth(year, 11) == 276 + february;
  }

  lemma NextDayOrdinal(d: Date)
    requires ValidDate(d)
    ensures ValidDate(NextDay(d)) && Ordinal(NextDay(d)) == Ordinal(d) + 1
  {
    if d.day == DaysInMonth(d.year, d.month) && d.month == 12 {
      YearLength(d.year);
      MonthsOfYear(d.year);
    }
  }

  lemma {:induction false} PlusOrdinal(d: Date, n: nat)
    requires ValidDate(d)
    ensures ValidDate(Plus(d, n)) && Ordinal(Plus(d, n)) == Ordinal(d) + n
  {
    if n > 0 {
      PlusOrdinal(d, n - 1);
      NextDayOrdinal(Plus(d, n - 1));
    }
  }

  lemma {:induction false} MonthsGrow(year: int, a: int, b: int)
    requires 1 <= a < b <= 12
    ensures DaysBeforeMonth(year, a) + DaysInMonth(year, a) <= DaysBeforeMonth(year, b)
  {
    if a + 1 < b {
      MonthsGrow(year, a, b - 1);
    }
  }

  lemma {:induction false} YearsGrow(a: int, b: int)
    requires 1 <= a < b
    ensures DaysBeforeYear(a + 1) <= DaysBeforeYear(b)
    decreases b - a
  {
  }

  lemma WithinYear(d: Date)
    requires ValidDate(d)
    ensures DaysBeforeYear(d.year) < Ordinal(d) <= DaysBeforeYear(d.year + 1)
  {
    YearLength(d.year);
    MonthsOfYear(d.year);
    if d.month < 12 {
      MonthsGrow(d.year, d.month, 12);
    }
    if d.month > 1 {
      MonthsGrow(d.year, 1, d.month);
    }
  }

  /** Comparing dates is comparing day numbers. */
  lemma BeforeIsOrdinal(a: Date, b: Date)
    requires ValidDate(a) && ValidDate(b)
    ensures Before(a, b) <==> Ordinal(a) < Ordinal(b)
  {
    BeforeHasSmallerOrdinal(a, b);
    BeforeHasSmallerOrdinal(b, a);
  }

  lemma BeforeHasSmallerOrdinal(a: Date, b: Date)
    requires ValidDate(a) && ValidDate(b)
    ensures Before(a, b) ==> Ordinal(a) < Ordinal(b)
  {
    WithinYear(a);
    WithinYear(b);
    if a.year < b.year {
      YearsGrow(a.year, b.year);
    } else if a.year == b.year && a.month < b.month {
      MonthsGrow(a.year, a.month, b.month);
    }
  }

  lemma SameOrdinal(a: Date, b: Date)
    requires ValidDate(a) && ValidDate(b) && Ordinal(a) == Ordinal(b)
    ensures a == b
  {
    BeforeIsOrdinal(a, b);
    BeforeIsOrdinal(b, a);
  }

  // ---- Buckets ----

  datatype Granularity = Day | Week | Month

  /** Monday is 0. */
  function Weekday(d: Date): int { (Ordinal(d) + 6) % 7 }

  function PreviousDay(d: Date): Date {
    if d.day > 1 then d.(day := d.day - 1)
    else if d.month > 1 then Date(d.year, d.month - 1, DaysInMonth(d.year, d.month - 1))
    else Date(d.year - 1, 12, 31)
  }

  /** `date - timedelta(days=n)` */
  function Minus(d: Date, n: nat): Date { if n == 0 then d else PreviousDay(Minus(d, n - 1)) }

  function BucketStart(d: Date, g: Granularity): Date {
    match g
    case Day => d
    case Week => Minus(d, Weekday(d))
    case Month => d.(day := 1)
  }

  /** The step to the next bucket; for months, the day after the 28th plus four lies in the next month. */
  function NextBucket(d: Date, g: Granularity): Date {
    match g
    case Day => Plus(d, 1)
    case Week => Plus(d, 7)
    case Month => Plus(d.(day := 28), 4).(day := 1)
  }

  predicate IsBucketStart(d: Date, g: Granularity) {
    && ValidDate(d)
    && (g == Week ==> Weekday(d) == 0)
    && (g == Month ==> d.day == 1)
  }

  /** From the 28th, four days later is always in the next month and never beyond it. */
  lemma TwentyEighthPlusFour(d: Date)
    requires ValidDate(d)
    ensures NextBucket(d, Month) == NextMonth(d)
  {
    var start := d.(day := 28);
    var a := NextDay(start);
    var b := NextDay(a);
    var c := NextDay(b);
    assert Plus(start, 4) == NextDay(Plus(start, 3)) == NextDay(NextDay(Plus(start, 2))) == NextDay(c) by {
      assert Plus(start, 1) == NextDay(Plus(start, 0)) == a;
      assert Plus(start, 2) == b && Plus(start, 3) == c;
    }
  }

  lemma NextBucketIsLater(d: Date, g: Granularity)
    requires IsBucketStart(d, g)
    ensures IsBucketStart(NextBucket(d, g), g) && Ordinal(d) < Ordinal(NextBucket(d, g))
  {
    match g
    case Day => PlusOrdinal(d, 1);
    case Week => PlusOrdinal(d, 7);
    case Month =>
      TwentyEighthPlusFour(d);
      BeforeIsOrdinal(d, NextMonth(d));
  }

  /** Each bucket begins where the one before it ends. */
  ghost predicate GapFree(buckets: seq<Date>, g: Granularity) {
    forall i :: 0 < i < |buckets| ==> buckets[i] == NextBucket(buckets[i - 1], g)
  }

  /** The buckets so far: starts of buckets up to `to`, each before the next, and all before `current`. */
  ghost predicate BucketsUpTo(buckets: seq<Date>, current: Date, to: Date, g: Granularity) {
    && (forall i :: 0 <= i < |buckets| ==>
         IsBucketStart(buckets[i], g) && !Before(to, buckets[i]) && Before(buckets[i], current))
    && (forall i, j :: 0 <= i < j < |buckets| ==> Before(buckets[i], buckets[j]))
  }

  method BucketDates(first: Date, to: Date, g: Granularity) returns (buckets: seq<Date>)
    requires IsBucketStart(first, g) && ValidDate(to)
    ensures forall i :: 0 <= i < |buckets| ==> IsBucketStart(buckets[i], g) && !Before(to, buckets[i])
    ensures forall i, j :: 0 <= i < j < |buckets| ==> Before(buckets[i], buckets[j])
    ensures |buckets| > 0 ==> buckets[0] == first
    ensures GapFree(buckets, g)
    ensures if buckets == [] then Before(to, first) else Before(to, NextBucket(buckets[|buckets| - 1], g))
  {
    buckets := [];
    var current := first;
    while !Before(to, current)
      invariant IsBucketStart(current, g) && GapFree(buckets, g)
      invariant BucketsUpTo(buckets, current, to, g)
      invariant if buckets == [] then current == first
                else buckets[0] == first && current == NextBucket(buckets[|buckets| - 1], g)
      decreases Ordinal(to) - Ordinal(current)
    {
      OneMoreBucket(buckets, current, to, g);
      GapFreeGrows(buckets, current, g);
      buckets := buckets + [current];
      current := NextBucket(current, g);
    }
  }

  lemma GapFreeGrows(buckets: seq<Date>, current: Date, g: Granularity)
    requires GapFree(buckets, g) && (buckets != [] ==> current == NextBucket(buckets[|buckets| - 1], g))
    ensures GapFree(buckets + [current], g)
  {
  }

  lemma OneMoreBucket(buckets: seq<Date>, current: Date, to: Date, g: Granularity)
    requires IsBucketStart(current, g) && ValidDate(to) && !Before(to, current) && BucketsUpTo(buckets, current, to, g)
    ensures IsBucketStart(NextBucket(current, g), g)
    ensures BucketsUpTo(buckets + [current], NextBucket(current, g), to, g)
    ensures Ordinal(current) <= Ordinal(to) && Ordinal(current) < Ordinal(NextBucket(current, g))
  {
    var next := NextBucket(current, g);
    NextBucketIsLater(current, g);
    BeforeIsOrdinal(current, next);
    BeforeIsOrdinal(to, current);
    forall i | 0 <= i < |buckets| ensures Before(buckets[i], next) {
      BeforeIsTransitive(buckets[i], current, next);
    }
  }

  lemma BeforeIsTransitive(a: Date, b: Date, c: Date)
    requires Before(a, b) && Before(b, c)
    ensures Before(a, c)
  {
  }

  lemma PreviousDayOrdinal(d: Date)
    requires ValidDate(d) && Ordinal(d) > 1
    ensures ValidDate(PreviousDay(d)) && Ordinal(PreviousDay(d)) == Ordinal(d) - 1
  {
    if d.day == 1 && d.month == 1 {
      assert d.year > 1;
      YearLength(d.year - 1);
      MonthsOfYear(d.year - 1);
    }
  }

  lemma {:induction false} MinusOrdinal(d: Date, n: nat)
    requires ValidDate(d) && Ordinal(d) > n
    ensures ValidDate(Minus(d, n)) && Ordinal(Minus(d, n)) == Ordinal(d) - n
  {
    if n > 0 {
      MinusOrdinal(d, n - 1);
      PreviousDayOrdinal(Minus(d, n - 1));
    }
  }

  /** Every day belongs to the one bucket that starts no later and whose successor starts later. */
  lemma BucketOfDay(d: Date, start: Date, g: Granularity)
    requires ValidDate(d) && IsBucketStart(start, g)
    ensures BucketStart(d, g) == start <==> !Before(d, start) && Before(d, NextBucket(start, g))
  {
    BeforeIsOrdinal(d, start);
    NextBucketIsLater(start, g);
    BeforeIsOrdinal(d, NextBucket(start, g));
    match g
    case Day =>
      PlusOrdinal(start, 1);
      if Ordinal(d) == Ordinal(start) {
        SameOrdinal(d, start);
      }
    case Week => WeekOfDay(d, start);
    case Month => TwentyEighthPlusFour(start);
  }

  /** In day numbers: a day less its weekday is the Monday that is at most six days before. */
  lemma MondayBefore(o: int, monday: int)
    requires o >= 1 && (monday + 6) % 7 == 0
    ensures (o + 6) % 7 < o
    ensures o - (o + 6) % 7 == monday <==> monday <= o < monday + 7
  {
  }

  lemma WeekOfDay(d: Date, start: Date)
    requires ValidDate(d) && ValidDate(start) && Weekday(start) == 0
    ensures BucketStart(d, Week) == start <==> Ordinal(start) <= Ordinal(d) < Ordinal(NextBucket(start, Week))
  {
    PlusOrdinal(start, 7);
    DayNumbersStartAtOne(d);
    MondayBefore(Ordinal(d), Ordinal(start));
    MinusOrdinal(d, Weekday(d));
    if Ordinal(BucketStart(d, Week)) == Ordinal(start) {
      SameOrdinal(BucketStart(d, Week), start);
    }
  }

  lemma DayNumbersStartAtOne(d: Date)
    requires ValidDate(d)
    ensures Ordinal(d) >= 1
  {
    if d.year > 1 {
      YearsGrow(1, d.year);
      WithinYear(d);
    } else {
      WithinYear(d);
    }
  }

  /** Any strictly growing, gap-free list of buckets that reaches past `to` has the bucket of every day from the first
      bucket up to `to`: no lookup of a transaction's bucket can fail. */
  lemma {:induction false} EveryDayHasABucket(buckets: seq<Date>, d: Date, g: Granularity)
    requires |buckets| > 0 && ValidDate(d) && GapFree(buckets, g)
    requires forall i :: 0 <= i < |buckets| ==> IsBucketStart(buckets[i], g)
    requires !Before(d, buckets[0]) && Before(d, NextBucket(buckets[|buckets| - 1], g))
    ensures BucketStart(d, g) in buckets
  {
    var last := |buckets| - 1;
    if Before(d, buckets[last]) {
      assert buckets[last] == NextBucket(buckets[last - 1], g);
      EveryDayHasABucket(buckets[..last], d, g);
    } else {
      BucketOfDay(d, buckets[last], g);
    }
  }

  // ---- Due dates ----

  datatype Frequency = Weekly | Monthly | Quarterly | Yearly

  function MonthsOf(f: Frequency): int
    requires f != Weekly
  {
    match f
    case Monthly => 1
    case Quarterly => 3
    case Yearly => 12
  }

  /** Months counted through from year 0. */
  function MonthIndex(d: Date): int { d.year * 12 + d.month - 1 }

  /** The date in a month with the intended day, or the last day of a shorter month. */
  function InMonth(index: int, day: int): Date {
    var year, month := index / 12, index % 12 + 1;
    Date(year, month, Min(day, DaysInMonth(year, month)))
  }

  /** The local due date after `d`; without an anchor the day of `d` itself is intended. */
  function AdvanceDue(d: Date, f: Frequency, anchor: Option<int>): Date {
    if f == Weekly then Plus(d, 7)
    else InMonth(MonthIndex(d) + MonthsOf(f), if anchor.Some? then anchor.value else d.day)
  }

  function AdvanceTimes(d: Date, f: Frequency, anchor: Option<int>, n: nat): Date {
    if n == 0 then d else AdvanceDue(AdvanceTimes(d, f, anchor, n - 1), f, anchor)
  }

  lemma OnePeriodMore(n: nat, k: nat)
    requires n >= 1
    ensures (n - 1) * k + k == n * k && (n - 1) * k >= 0
  {
  }

  /** With its anchor day a rule never drifts: the n-th due date after the first lies n periods later, on the anchor
      day or the last day of a shorter month, whatever months lie between. */
  lemma {:induction false} AnchoredDatesDoNotDrift(d: Date, f: Frequency, anchor: int, n: nat)
    requires ValidDate(d) && 1 <= anchor <= 31 && f != Weekly && n >= 1
    ensures AdvanceTimes(d, f, Some(anchor), n) == InMonth(MonthIndex(d) + n * MonthsOf(f), anchor)
  {
    if n > 1 {
      AnchoredDatesDoNotDrift(d, f, anchor, n - 1);
      OnePeriodMore(n, MonthsOf(f));
      InMonthIs(MonthIndex(d) + (n - 1) * MonthsOf(f), anchor);
    } else {
      assert AdvanceTimes(d, f, Some(anchor), 0) == d;
      assert 1 * MonthsOf(f) == MonthsOf(f);
    }
  }

  /** Weekly rules advance by exactly seven days each time. */
  lemma {:induction false} WeeklyDates(d: Date, anchor: Option<int>, n: nat)
    requires ValidDate(d)
    ensures ValidDate(AdvanceTimes(d, Weekly, anchor, n))
    ensures Ordinal(AdvanceTimes(d, Weekly, anchor, n)) == Ordinal(d) + 7 * n
  {
    if n > 0 {
      WeeklyDates(d, anchor, n - 1);
      PlusOrdinal(AdvanceTimes(d, Weekly, anchor, n - 1), 7);
    }
  }

  /** Every advance is strictly later. */
  lemma DueDatesGrow(d: Date, f: Frequency, anchor: Option<int>)
    requires ValidDate(d) && (anchor.Some? ==> 1 <= anchor.value <= 31)
    ensures ValidDate(AdvanceDue(d, f, anchor)) && Before(d, AdvanceDue(d, f, anchor))
  {
    if f == Weekly {
      PlusOrdinal(d, 7);
      BeforeIsOrdinal(d, AdvanceDue(d, f, anchor));
    }
  }

  function MonthLength(index: int): int { DaysInMonth(index / 12, index % 12 + 1) }

  lemma InMonthIs(index: int, day: int)
    requires index >= 12 && day >= 1
    ensures var d := InMonth(index, day);
      ValidDate(d) && MonthIndex(d) == index && d.day == Min(day, MonthLength(index))
  {
  }

  lemma YearAndMonth(index: int, year: int, month: int)
    requires 1 <= month <= 12 && index == year * 12 + month - 1
    ensures index / 12 == year && index % 12 == month - 1
  {
  }

  lemma LeapCycle(year: int)
    ensures IsLeap(year + 400) == IsLeap(year)
  {
  }

  lemma OneCycle(index: int)
    ensures MonthLength(index + 4800) == MonthLength(index)
  {
    YearAndMonth(index, index / 12, index % 12 + 1);
    YearAndMonth(index + 4800, index / 12 + 400, index % 12 + 1);
    LeapCycle(index / 12);
  }

  /** The calendar repeats after 400 years. */
  lemma {:induction false} FourCenturies(index: int, n: nat)
    ensures MonthLength(index + 4800 * n) == MonthLength(index)
  {
    if n > 0 {
      FourCenturies(index, n - 1);
      OneCycle(index + 4800 * (n - 1));
    }
  }

  /** The month of the n-th date. */
  function IndexAfter(d: Date, f: Frequency, n: nat): int
    requires f != Weekly
  {
    MonthIndex(d) + n * MonthsOf(f)
  }

  lemma NextIndex(d: Date, f: Frequency, n: nat)
    requires f != Weekly
    ensures IndexAfter(d, f, n + 1) == IndexAfter(d, f, n) + MonthsOf(f) && IndexAfter(d, f, n) >= MonthIndex(d)
  {
  }

  lemma UnanchoredStep(d: Date, f: Frequency)
    requires ValidDate(d) && f != Weekly
    ensures var u := AdvanceDue(d, f, None);
      && ValidDate(u) && MonthIndex(u) == MonthIndex(d) + MonthsOf(f)
      && u.day == Min(d.day, MonthLength(MonthIndex(d) + MonthsOf(f)))
  {
    InMonthIs(MonthIndex(d) + MonthsOf(f), d.day);
  }

  /** Where an unanchored rule is after `n` advances: in the right month, on its last day or the day that it had
      before. */
  lemma {:induction false} UnanchoredDate(d: Date, f: Frequency, n: nat)
    requires ValidDate(d) && f != Weekly
    ensures ValidDate(AdvanceTimes(d, f, None, n)) && MonthIndex(AdvanceTimes(d, f, None, n)) == IndexAfter(d, f, n)
    ensures n > 0 ==>
      AdvanceTimes(d, f, None, n).day == Min(AdvanceTimes(d, f, None, n - 1).day, MonthLength(IndexAfter(d, f, n)))
  {
    if n > 0 {
      UnanchoredDate(d, f, n - 1);
      NextIndex(d, f, n - 1);
      UnanchoredStep(AdvanceTimes(d, f, None, n - 1), f);
    }
  }

  lemma {:induction false} UnanchoredNeverRecovers(d: Date, f: Frequency, n: nat, m: nat)
    requires ValidDate(d) && f != Weekly && n <= m
    ensures AdvanceTimes(d, f, None, m).day <= AdvanceTimes(d, f, None, n).day
  {
    if n < m {
      UnanchoredNeverRecovers(d, f, n, m - 1);
      UnanchoredDate(d, f, m);
    }
  }

  lemma DayFitsItsMonth(d: Date)
    requires ValidDate(d)
    ensures d.day <= MonthLength(MonthIndex(d)) && InMonth(MonthIndex(d), d.day) == d && MonthIndex(d) >= 12
  {
    YearAndMonth(MonthIndex(d), d.year, d.month);
  }

  lemma AnchoredDate(d: Date, f: Frequency, n: nat)
    requires ValidDate(d) && f != Weekly
    ensures AdvanceTimes(d, f, Some(d.day), n) == InMonth(IndexAfter(d, f, n), d.day)
  {
    if n > 0 {
      AnchoredDatesDoNotDrift(d, f, d.day, n);
    } else {
      DayFitsItsMonth(d);
    }
  }

  /** No month on the way of a rule is shorter than the day that it started on. */
  ghost predicate MonthsLongEnough(d: Date, f: Frequency)
    requires f != Weekly
  {
    forall n: nat :: d.day <= MonthLength(IndexAfter(d, f, n))
  }

  ghost predicate NeverDrifts(d: Date, f: Frequency) {
    forall n: nat :: AdvanceTimes(d, f, None, n) == AdvanceTimes(d, f, Some(d.day), n)
  }

  lemma {:induction false} LongMonthsKeepTheDay(d: Date, f: Frequency, n: nat)
    requires ValidDate(d) && f != Weekly && MonthsLongEnough(d, f)
    ensures AdvanceTimes(d, f, None, n).day == d.day
  {
    if n > 0 {
      LongMonthsKeepTheDay(d, f, n - 1);
      UnanchoredDate(d, f, n);
      assert d.day <= MonthLength(IndexAfter(d, f, n));
    }
  }

  lemma SameMonthSameDay(a: Date, b: Date)
    requires ValidDate(a) && ValidDate(b) && MonthIndex(a) == MonthIndex(b) && a.day == b.day
    ensures a == b
  {
  }

  /** Once an unanchored rule has met a shorter month it is off its day when the calendar repeats, if not before. */
  lemma ShortMonthDrifts(d: Date, f: Frequency, n: nat)
    requires ValidDate(d) && f != Weekly && d.day > MonthLength(IndexAfter(d, f, n))
    ensures !NeverDrifts(d, f)
  {
    var later := n + CycleFrom(f, n);
    UnanchoredDate(d, f, n);
    UnanchoredNeverRecovers(d, f, n, later);
    AnchoredDate(d, f, later);
    DayFitsItsMonth(d);
    CycleEnds(d, f, n);
    NextIndex(d, f, later);
    InMonthIs(IndexAfter(d, f, later), d.day);
    assert AdvanceTimes(d, f, None, later) != AdvanceTimes(d, f, Some(d.day), later);
  }

  /** How many further advances lead back to a month of the calendar like the first. */
  function CycleFrom(f: Frequency, n: nat): nat
    requires f != Weekly
  {
    4800 / MonthsOf(f) * (n + 1) - n
  }

  lemma CycleEnds(d: Date, f: Frequency, n: nat)
    requires ValidDate(d) && f != Weekly
    ensures MonthLength(IndexAfter(d, f, n + CycleFrom(f, n))) == MonthLength(MonthIndex(d))
  {
    assert (n + CycleFrom(f, n)) * MonthsOf(f) == 4800 * (n + 1);
    FourCenturies(MonthIndex(d), n + 1);
  }

  /** Without an anchor a rule never drifts if and only if no month on its way is shorter than the day it started on. */
  lemma DriftsIffAMonthIsShort(d: Date, f: Frequency)
    requires ValidDate(d) && f != Weekly
    ensures NeverDrifts(d, f) <==> MonthsLongEnough(d, f)
  {
    if MonthsLongEnough(d, f) {
      forall n: nat ensures AdvanceTimes(d, f, None, n) == AdvanceTimes(d, f, Some(d.day), n) {
        LongMonthsKeepTheDay(d, f, n);
        UnanchoredDate(d, f, n);
        AnchoredDate(d, f, n);
        NextIndex(d, f, n);
        InMonthIs(IndexAfter(d, f, n), d.day);
        SameMonthSameDay(AdvanceTimes(d, f, None, n), AdvanceTimes(d, f, Some(d.day), n));
      }
    } else {
      var n: nat :| d.day > MonthLength(IndexAfter(d, f, n));
      ShortMonthDrifts(d, f, n);
    }
  }

  /** For monthly rules that is: up to the 28th. */
  lemma MonthlyRulesDriftAfterThe28th(d: Date)
    requires ValidDate(d)
    ensures NeverDrifts(d, Monthly) <==> d.day <= 28
  {
    DriftsIffAMonthIsShort(d, Monthly);
    var year := if IsLeap(d.year + 1) then d.year + 2 else d.year + 1;
    FebruaryOf(year);
    var n: nat := year * 12 + 1 - MonthIndex(d);
    assert IndexAfter(d, Monthly, n) == year * 12 + 1;
  }

  lemma FebruaryOf(year: int)
    ensures MonthLength(year * 12 + 1) == if IsLeap(year) then 29 else 28
  {
    YearAndMonth(year * 12 + 1, year, 2);
  }

  /** For yearly rules: every day but 29 February. */
  lemma YearlyRulesDriftOnLeapDays(d: Date)
    requires ValidDate(d)
    ensures NeverDrifts(d, Yearly) <==> !(d.month == 2 && d.day == 29)
  {
    DriftsIffAMonthIsShort(d, Yearly);
    if d.month == 2 && d.day == 29 {
      FebruaryOf(d.year + 1);
      assert IndexAfter(d, Yearly, 1) == (d.year + 1) * 12 + 1;
    } else {
      forall n: nat ensures d.day <= MonthLength(IndexAfter(d, Yearly, n)) {
        SameMonthLater(d, n);
      }
    }
  }

  lemma SameMonthLater(d: Date, n: nat)
    requires ValidDate(d) && !(d.month == 2 && d.day == 29)
    ensures d.day <= MonthLength(IndexAfter(d, Yearly, n))
  {
    var index := (d.year + n) * 12 + d.month - 1;
    assert IndexAfter(d, Yearly, n) == index;
    YearAndMonth(index, d.year + n, d.month);
  }

  /** The n-th due date in plain months and years: monthly n months on, quarterly three times as many, yearly in the
      same month n years on; always on the anchor day or, in a shorter month, on its last day. */
  lemma AnchoredDatesFall(d: Date, f: Frequency, anchor: int, n: nat)
    requires ValidDate(d) && 1 <= anchor <= 31 && f != Weekly && n >= 1
    ensures var e := AdvanceTimes(d, f, Some(anchor), n);
      && ValidDate(e)
      && (f == Monthly ==> 12 * e.year + e.month == 12 * d.year + d.month + n)
      && (f == Quarterly ==> 12 * e.year + e.month == 12 * d.year + d.month + 3 * n)
      && (f == Yearly ==> e.year == d.year + n && e.month == d.month)
      && e.day <= anchor && (e.day == anchor || !ValidDate(e.(day := e.day + 1)))
  {
    AnchoredDatesDoNotDrift(d, f, anchor, n);
    assert f == Yearly ==> n * MonthsOf(f) == 12 * n;
    InMonthIs(MonthIndex(d) + n * MonthsOf(f), anchor);
  }
}
